/** Who hears whom in a voice chat (sipgram/bridge.py:273-318): the calls and people of `GroupBridge` over any
    sequence of what they say and of pumps. */
module GroupPlayout {
  import opened Options
  import opened Bytes
  import opened PcmBuffers
  import opened PcmSamples
  import opened GroupMixing

  /** A person of the chat or a call speaks, a call begins or stops to hear, the clock pumps once. */
  datatype Act = Speaks(person: nat, pcm: bytes) | Calls(leg: nat, pcm: bytes) | Turns(leg: nat, hears: bool) | Pumps

  /** A call: what it has said, at the rate of the chat, whether it hears, its own rate, and what it was sent. */
  datatype Ear = Ear(story: Story, hears: bool, rate: nat, heard: seq<bytes>)

  datatype Room = Room(people: seq<Story>, legs: seq<Ear>, chat: seq<bytes>)

  /** How many people, the rate of every call, that of the chat, the capacity of the buffers and the resampler. */
  datatype Setup = Setup(people: nat, rates: seq<nat>, rate: nat, max: nat, resample: (bytes, nat, nat) -> bytes)

  const SILENT := Story(Fifo([], 0, 0, 0), [], 0, 0)

  function Frame(s: Setup): nat {
    s.rate * 2 / 100
  }

  function AfterPump(s: Story, n: nat): Story {
    s.(fifo := Rest(s.fifo, n), delivered := s.delivered + (|s.fifo.buf| - |Rest(s.fifo, n).buf|))
  }

  function FifosOf(stories: seq<Story>): (fifos: seq<Fifo>)
    ensures |fifos| == |stories|
  {
    seq(|stories|, i requires 0 <= i < |stories| => stories[i].fifo)
  }

  function Stories(legs: seq<Ear>): (stories: seq<Story>)
    ensures |stories| == |legs| && forall k :: 0 <= k < |legs| ==> stories[k] == legs[k].story
  {
    seq(|legs|, k requires 0 <= k < |legs| => legs[k].story)
  }

  /** One pump, as `GroupBridge.Pump` does it. */
  function Pumped(r: Room, s: Setup): Room {
    var n := Frame(s);
    var spoken, calls := Contributions(FifosOf(r.people), n), Contributions(FifosOf(Stories(r.legs)), n);
    var mix := Pcm(ChatHears(calls, n));
    Room(seq(|r.people|, i requires 0 <= i < |r.people| => AfterPump(r.people[i], n)),
         seq(|r.legs|, k requires 0 <= k < |r.legs| =>
           r.legs[k].(story := AfterPump(r.legs[k].story, n),
                      heard := r.legs[k].heard
                               + Sent(r.legs[k].hears, spoken, calls, n, k, s.resample, s.rate, r.legs[k].rate))),
         r.chat + [mix[..n], mix[n..]])
  }

  function Step(r: Room, act: Act, s: Setup): Room {
    match act
    case Speaks(i, pcm) =>
      if i < |r.people| then r.(people := r.people[i := Next(r.people[i], Op.Push(pcm), s.max)]) else r
    case Calls(k, pcm) =>
      if k < |r.legs| then
        var ear := r.legs[k];
        var push := Op.Push(AtRate(s.resample, pcm, ear.rate, s.rate));
        r.(legs := r.legs[k := ear.(story := Next(ear.story, push, s.max))])
      else r
    case Turns(k, hears) => if k < |r.legs| then r.(legs := r.legs[k := r.legs[k].(hears := hears)]) else r
    case Pumps => Pumped(r, s)
  }

  function RoomOf(acts: seq<Act>, s: Setup): Room
    decreases |acts|
  {
    if acts == [] then
      Room(seq(s.people, _ => SILENT),
           seq(|s.rates|, k requires 0 <= k < |s.rates| => Ear(SILENT, false, s.rates[k], [])), [])
    else Step(RoomOf(acts[..|acts| - 1], s), acts[|acts| - 1], s)
  }

  /** Every buffer holds the end of what was said. */
  predicate Sound(r: Room, s: Setup) {
    && |r.people| == s.people && |r.legs| == |s.rates|
    && (forall i :: 0 <= i < |r.people| ==> Accounted(r.people[i], s.max))
    && (forall k :: 0 <= k < |r.legs| ==> Accounted(r.legs[k].story, s.max) && r.legs[k].rate == s.rates[k])
  }

  lemma PulledAccounted(s: Story, n: nat, max: nat)
    requires Accounted(s, max)
    ensures Accounted(AfterPump(s, n), max)
    ensures AfterPump(s, n).stream == s.stream && AfterPump(s, n).fifo.dropped == s.fifo.dropped
    ensures Gone(AfterPump(s, n)) == Gone(s) + if |s.fifo.buf| < 2 * n then |s.fifo.buf| else 2 * n
  {
    PullAccounted(s, 2 * n, true, max);
  }

  lemma StepSound(r: Room, act: Act, s: Setup)
    requires Sound(r, s)
    ensures Sound(Step(r, act, s), s)
  {
    hide Accounted, Next, AfterPump, Contributions, Sent, ChatHears, AtRate;
    match act
    case Speaks(i, pcm) =>
      if i < |r.people| {
        PushAccounted(r.people[i], pcm, s.max);
      }
    case Calls(k, pcm) =>
      if k < |r.legs| {
        PushAccounted(r.legs[k].story, AtRate(s.resample, pcm, r.legs[k].rate, s.rate), s.max);
      }
    case Turns(_, _) =>
    case Pumps =>
      forall i | 0 <= i < |r.people| ensures Accounted(AfterPump(r.people[i], Frame(s)), s.max) {
        PulledAccounted(r.people[i], Frame(s), s.max);
      }
      forall k | 0 <= k < |r.legs| ensures Accounted(AfterPump(r.legs[k].story, Frame(s)), s.max) {
        PulledAccounted(r.legs[k].story, Frame(s), s.max);
      }
  }

  lemma {:induction false} RoomSound(acts: seq<Act>, s: Setup)
    ensures Sound(RoomOf(acts, s), s)
    decreases |acts|
  {
    hide Step;
    if acts == [] {
      assert Accounted(SILENT, s.max);
    } else {
      RoomSound(acts[..|acts| - 1], s);
      StepSound(RoomOf(acts[..|acts| - 1], s), acts[|acts| - 1], s);
    }
  }

  // ---- What is heard ----

  /** Sample i of what comes next of somebody's speech, or silence once it has run out. */
  function Said(s: Story, i: nat): (x: int)
    ensures -32768 <= x < 32768
  {
    var at := Gone(s) + 2 * i;
    if at + 1 < |s.stream| then Sample(s.stream[at], s.stream[at + 1])
    else if at < |s.stream| then Sample(s.stream[at], 0)
    else 0
  }

  /** Everybody's sample i together. */
  function Together(stories: seq<Story>, i: nat): int {
    if stories == [] then 0 else Together(stories[..|stories| - 1], i) + Said(stories[|stories| - 1], i)
  }

  lemma ContributionIsSaid(s: Story, n: nat, max: nat, i: nat)
    requires Accounted(s, max) && i < n
    ensures Contribution(s.fifo, n)[i] == Said(s, i)
  {
    hide Sample;
    var at := Gone(s);
    assert s.stream[at..] == s.fifo.buf;
    ContributedSample(s.fifo, n, i);
    if 2 * i < |s.fifo.buf| {
      assert s.fifo.buf[2 * i] == s.stream[at + 2 * i];
    }
    if 2 * i + 1 < |s.fifo.buf| {
      assert s.fifo.buf[2 * i + 1] == s.stream[at + 2 * i + 1];
    }
    SilentSample();
  }

  lemma SilentSample()
    ensures Sample(0, 0) == 0
  {
  }

  lemma ContributedSample(f: Fifo, n: nat, i: nat)
    requires i < n
    ensures Contribution(f, n)[i] == if 2 * i + 1 < |f.buf| then Sample(f.buf[2 * i], f.buf[2 * i + 1])
                                     else if 2 * i < |f.buf| then Sample(f.buf[2 * i], 0)
                                     else Sample(0, 0)
  {
    hide Sample;
    SilentSample();
    if |f.buf| >= 2 * n {
      SampleOf(f.buf[..2 * n], i);
    } else if f.buf != [] {
      SampleOf(f.buf + Zeros(2 * n - |f.buf|), i);
    }
  }

  lemma SampleOf(pcm: bytes, i: nat)
    requires i < |pcm| / 2
    ensures Samples(pcm)[i] == Sample(pcm[2 * i], pcm[2 * i + 1])
  {
    hide Sample;
  }

  lemma {:induction false} TotalIsTogether(stories: seq<Story>, n: nat, max: nat, i: nat)
    requires i < n && forall j :: 0 <= j < |stories| ==> Accounted(stories[j], max)
    ensures Total(Contributions(FifosOf(stories), n), n, i) == Together(stories, i)
  {
    hide Accounted, Contribution, Said;
    if stories != [] {
      var front, last := stories[..|stories| - 1], stories[|stories| - 1];
      var frames := Contributions(FifosOf(stories), n);
      assert frames[..|frames| - 1] == Contributions(FifosOf(front), n);
      ContributionIsSaid(last, n, max, i);
      TotalIsTogether(front, n, max, i);
    }
  }

  /** A frame of samples is the nearest to what all of the stories say together. */
  predicate Carries(mix: bytes, n: nat, a: seq<Story>, b: seq<Story>) {
    |mix| == 2 * n && forall i :: 0 <= i < n ==> Nearest(Together(a, i) + Together(b, i), Samples(mix)[i])
  }

  lemma LegCarries(people: seq<Story>, legs: seq<Story>, k: nat, n: nat, max: nat)
    requires k < |legs| && |people| + |legs| <= LIMIT
    requires forall j :: 0 <= j < |people| ==> Accounted(people[j], max)
    requires forall j :: 0 <= j < |legs| ==> Accounted(legs[j], max)
    ensures Carries(Pcm(HeardBy(Contributions(FifosOf(people), n), Contributions(FifosOf(legs), n), n, k)), n,
                    people, legs[..k] + legs[k + 1..])
  {
    hide Accounted, Contribution, Total, HeardBy, Together, Nearest, Pcm, Samples;
    var spoken, calls := Contributions(FifosOf(people), n), Contributions(FifosOf(legs), n);
    var mix, others := HeardBy(spoken, calls, n, k), legs[..k] + legs[k + 1..];
    PcmRoundTrip(mix);
    assert Contributions(FifosOf(others), n) == Without(calls, k);
    forall i | 0 <= i < n ensures Nearest(Together(people, i) + Together(others, i), Samples(Pcm(mix))[i]) {
      MixMinus(spoken, calls, n, k, i);
      TotalIsTogether(people, n, max, i);
      TotalIsTogether(others, n, max, i);
    }
  }

  lemma ChatCarries(legs: seq<Story>, n: nat, max: nat)
    requires |legs| <= LIMIT && forall j :: 0 <= j < |legs| ==> Accounted(legs[j], max)
    ensures Carries(Pcm(ChatHears(Contributions(FifosOf(legs), n), n)), n, legs, [])
  {
    hide Accounted, Contribution, Total, ChatHears, Together, Nearest, Pcm, Samples;
    var calls := Contributions(FifosOf(legs), n);
    PcmRoundTrip(ChatHears(calls, n));
    forall i | 0 <= i < n ensures Nearest(Together(legs, i) + Together([], i), Samples(Pcm(ChatHears(calls, n)))[i]) {
      ChatHearsAll(calls, n, i);
      TotalIsTogether(legs, n, max, i);
      NobodySpeaks(i);
    }
  }

  lemma NobodySpeaks(i: nat)
    ensures Together([], i) == 0
  {
  }

  /** From a pump on, somebody's speech goes on where it stopped, and nothing of it is lost. */
  predicate GoesOn(before: Story, after: Story, n: nat) {
    && after.stream == before.stream && after.fifo.dropped == before.fifo.dropped
    && Gone(after) == if Gone(before) + 2 * n < |before.stream| then Gone(before) + 2 * n else |before.stream|
  }

  /** Whatever has been said: at a pump every call that hears is sent one frame, at its own rate, of what the people
      of the chat and all the other calls say next, and a call that does not hear is sent nothing. The chat is sent
      what the calls say next, in two halves. And nobody's speech is repeated or left out by a pump. */
  lemma EveryoneHears(acts: seq<Act>, s: Setup)
    requires s.people + |s.rates| <= LIMIT
    ensures var r, x, n := RoomOf(acts, s), RoomOf(acts + [Pumps], s), Frame(s);
            && |r.people| == |x.people| == s.people && |r.legs| == |x.legs| == |s.rates|
            && (forall k :: 0 <= k < |r.legs| && !r.legs[k].hears ==> x.legs[k].heard == r.legs[k].heard)
            && (forall k :: 0 <= k < |r.legs| && r.legs[k].hears ==>
                  exists mix ::
                    && x.legs[k].heard == r.legs[k].heard + [AtRate(s.resample, mix, s.rate, s.rates[k])]
                    && Carries(mix, n, r.people, Stories(r.legs)[..k] + Stories(r.legs)[k + 1..]))
            && (exists mix :: Carries(mix, n, Stories(r.legs), []) && x.chat == r.chat + [mix[..n], mix[n..]])
            && (forall i :: 0 <= i < |r.people| ==> GoesOn(r.people[i], x.people[i], n))
            && (forall k :: 0 <= k < |r.legs| ==> GoesOn(r.legs[k].story, x.legs[k].story, n))
  {
    hide Accounted, Contributions, ChatHears, HeardBy, Carries, AfterPump, GoesOn, FifosOf, AtRate;
    RoomSound(acts, s);
    var r, n := RoomOf(acts, s), Frame(s);
    assert (acts + [Pumps])[..|acts|] == acts;
    var x := Pumped(r, s);
    assert RoomOf(acts + [Pumps], s) == x;
    ChatCarries(Stories(r.legs), n, s.max);
    var spoken, calls := Contributions(FifosOf(r.people), n), Contributions(FifosOf(Stories(r.legs)), n);
    forall k | 0 <= k < |r.legs|
      ensures Carries(Pcm(HeardBy(spoken, calls, n, k)), n, r.people,
                      Stories(r.legs)[..k] + Stories(r.legs)[k + 1..])
    {
      LegCarries(r.people, Stories(r.legs), k, n, s.max);
    }
    forall i | 0 <= i < |r.people| ensures GoesOn(r.people[i], x.people[i], n) {
      PulledGoesOn(r.people[i], n, s.max);
    }
    forall k | 0 <= k < |r.legs| ensures GoesOn(r.legs[k].story, x.legs[k].story, n) {
      PulledGoesOn(r.legs[k].story, n, s.max);
    }
  }

  lemma PulledGoesOn(s: Story, n: nat, max: nat)
    requires Accounted(s, max)
    ensures GoesOn(s, AfterPump(s, n), n)
  {
    hide AfterPump;
    PulledAccounted(s, n, max);
  }
}
