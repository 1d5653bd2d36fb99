/** `GroupBridge` (sipgram/bridge.py): several SIP legs in one voice chat, everyone hearing everyone but
    themselves. */
module GroupMixing {
  import opened Options
  import opened Bytes
  import opened PcmBuffers
  import opened PcmSamples

  // ---- Sums ----

  const MAX32: int := 0x8000_0000

  /** int32 arithmetic of numpy. */
  function Wrap32(x: int): int {
    (x + MAX32) % (2 * MAX32) - MAX32
  }

  function Zero(n: nat): (z: seq<int>)
    ensures |z| == n && InRange(z)
  {
    seq(n, _ => 0)
  }

  function Add32(a: seq<int>, b: seq<int>): (r: seq<int>)
    requires |a| == |b|
    ensures |r| == |a|
  {
    seq(|a|, i requires 0 <= i < |a| => Wrap32(a[i] + b[i]))
  }

  function Sub32(a: seq<int>, b: seq<int>): (r: seq<int>)
    requires |a| == |b|
    ensures |r| == |a|
  {
    seq(|a|, i requires 0 <= i < |a| => Wrap32(a[i] - b[i]))
  }

  /** Frames of `n` samples each. */
  predicate Frames(frames: seq<seq<int>>, n: nat) {
    forall k :: 0 <= k < |frames| ==> |frames[k]| == n && InRange(frames[k])
  }

  /** The sum as numpy adds it up, one frame after the other. */
  function Mixed(frames: seq<seq<int>>, n: nat): (r: seq<int>)
    requires Frames(frames, n)
    ensures |r| == n
    decreases |frames|
  {
    if frames == [] then Zero(n) else Add32(Mixed(frames[..|frames| - 1], n), frames[|frames| - 1])
  }

  /** The true sum of sample i. */
  function Total(frames: seq<seq<int>>, n: nat, i: nat): (t: int)
    requires Frames(frames, n) && i < n
    ensures -32768 * |frames| <= t <= 32767 * |frames|
    decreases |frames|
  {
    if frames == [] then 0 else Total(frames[..|frames| - 1], n, i) + frames[|frames| - 1][i]
  }

  const LIMIT := 65536

  lemma NoWrap(x: int)
    requires -MAX32 <= x < MAX32
    ensures Wrap32(x) == x
  {
  }

  /** As long as there are at most 65536 frames, nothing overflows. */
  lemma {:induction false} MixedIsTotal(frames: seq<seq<int>>, n: nat, i: nat)
    requires Frames(frames, n) && i < n && |frames| <= LIMIT
    ensures Mixed(frames, n)[i] == Total(frames, n, i)
    decreases |frames|
  {
    if frames != [] {
      MixedIsTotal(frames[..|frames| - 1], n, i);
      NoWrap(Total(frames, n, i));
    }
  }

  /** And one frame more can overflow. */
  lemma {:induction false} LowestTotal(frames: seq<seq<int>>, i: nat)
    requires Frames(frames, 1) && i == 0 && forall k :: 0 <= k < |frames| ==> frames[k] == [-32768]
    ensures Total(frames, 1, 0) == -32768 * |frames|
    decreases |frames|
  {
    if frames != [] {
      LowestTotal(frames[..|frames| - 1], 0);
    }
  }

  lemma OverflowBeyondLimit()
    ensures var frames := seq(LIMIT + 1, _ => [-32768]);
            Frames(frames, 1) && Mixed(frames, 1)[0] != Total(frames, 1, 0)
  {
    var frames := seq(LIMIT + 1, _ => [-32768]);
    assert Frames(frames, 1);
    var front := frames[..LIMIT];
    assert frames[..|frames| - 1] == front;
    MixedIsTotal(front, 1, 0);
    LowestTotal(front, 0);
    LowestTotal(frames, 0);
    assert Mixed(frames, 1)[0] == Wrap32(Mixed(front, 1)[0] + -32768);
    assert Wrap32(-MAX32 - 32768) == MAX32 - 32768;
  }

  // ---- Mix-minus ----

  /** What `_pump` sends to leg k. */
  function HeardBy(sources: seq<seq<int>>, legs: seq<seq<int>>, n: nat, k: nat): (r: seq<int>)
    requires Frames(sources, n) && Frames(legs, n) && k < |legs|
    ensures |r| == n && InRange(r)
  {
    Clipped(Sub32(Add32(Mixed(sources, n), Mixed(legs, n)), legs[k]))
  }

  function ChatHears(legs: seq<seq<int>>, n: nat): (r: seq<int>)
    requires Frames(legs, n)
    ensures |r| == n && InRange(r)
  {
    Clipped(Mixed(legs, n))
  }

  function Without(legs: seq<seq<int>>, k: nat): seq<seq<int>>
    requires k < |legs|
  {
    legs[..k] + legs[k + 1..]
  }

  lemma {:induction false} TotalConcat(a: seq<seq<int>>, b: seq<seq<int>>, n: nat, i: nat)
    requires Frames(a, n) && Frames(b, n) && i < n
    ensures Frames(a + b, n) && Total(a + b, n, i) == Total(a, n, i) + Total(b, n, i)
    decreases |b|
  {
    assert Frames(a + b, n);
    if b == [] {
      assert a + b == a;
    } else {
      assert (a + b)[..|a + b| - 1] == a + b[..|b| - 1];
      TotalConcat(a, b[..|b| - 1], n, i);
    }
  }

  lemma TotalWithout(legs: seq<seq<int>>, n: nat, k: nat, i: nat)
    requires Frames(legs, n) && k < |legs| && i < n
    ensures Frames(Without(legs, k), n) && Total(legs, n, i) == Total(Without(legs, k), n, i) + legs[k][i]
  {
    var a, b := legs[..k], legs[k + 1..];
    assert legs == (a + [legs[k]]) + b;
    TotalConcat(a, [legs[k]], n, i);
    TotalConcat(a + [legs[k]], b, n, i);
    TotalConcat(a, b, n, i);
    assert [legs[k]][..0] == [];
  }

  /** Every leg hears the clipped sum of the chat and all the other legs. */
  lemma MixMinus(sources: seq<seq<int>>, legs: seq<seq<int>>, n: nat, k: nat, i: nat)
    requires Frames(sources, n) && Frames(legs, n) && k < |legs| && i < n && |sources| + |legs| <= LIMIT
    ensures Frames(Without(legs, k), n)
    ensures HeardBy(sources, legs, n, k)[i] == Clip(Total(sources, n, i) + Total(Without(legs, k), n, i))
    ensures Nearest(Total(sources, n, i) + Total(Without(legs, k), n, i), HeardBy(sources, legs, n, k)[i])
  {
    hide Total, Mixed, Wrap32, Without, HeardBy;
    TotalWithout(legs, n, k, i);
    MixedIsTotal(sources, n, i);
    MixedIsTotal(legs, n, i);
    FewerLegs(legs, k);
    TakenBack(Total(sources, n, i), Total(legs, n, i), Total(Without(legs, k), n, i), legs[k][i], |sources|, |legs|);
    HeardAt(sources, legs, n, k, i);
  }

  /** Adding everything up and taking one's own part back again stays within 32 bits. */
  lemma TakenBack(sources: int, all: int, others: int, own: int, m: nat, n: nat)
    requires all == others + own && 0 < n && m + n <= LIMIT
    requires -32768 * m <= sources <= 32767 * m && -32768 * n <= all <= 32767 * n
    requires -32768 * (n - 1) <= others <= 32767 * (n - 1)
    ensures Wrap32(Wrap32(sources + all) - own) == sources + others
  {
    NoWrap(sources + all);
    NoWrap(sources + others);
  }

  lemma FewerLegs(legs: seq<seq<int>>, k: nat)
    requires k < |legs|
    ensures |Without(legs, k)| == |legs| - 1
  {
  }

  lemma HeardAt(sources: seq<seq<int>>, legs: seq<seq<int>>, n: nat, k: nat, i: nat)
    requires Frames(sources, n) && Frames(legs, n) && k < |legs| && i < n
    ensures HeardBy(sources, legs, n, k)[i]
            == Clip(Wrap32(Wrap32(Mixed(sources, n)[i] + Mixed(legs, n)[i]) - legs[k][i]))
  {
    hide Mixed, Wrap32, Clip, Add32, Sub32, Clipped;
    var sum := Add32(Mixed(sources, n), Mixed(legs, n));
    SampleAt(Mixed(sources, n), Mixed(legs, n), i);
    SampleAt(sum, legs[k], i);
  }

  lemma SampleAt(a: seq<int>, b: seq<int>, i: nat)
    requires |a| == |b| && i < |a|
    ensures Add32(a, b)[i] == Wrap32(a[i] + b[i]) && Sub32(a, b)[i] == Wrap32(a[i] - b[i])
    ensures Clipped(Sub32(a, b))[i] == Clip(Wrap32(a[i] - b[i]))
  {
    hide Wrap32, Clip;
  }

  /** Nobody hears themselves: a leg's own audio makes no difference to what it gets. */
  lemma OwnAudioDoesNotMatter(sources: seq<seq<int>>, legs: seq<seq<int>>, n: nat, k: nat, own: seq<int>)
    requires Frames(sources, n) && Frames(legs, n) && k < |legs| && |sources| + |legs| <= LIMIT
    requires |own| == n && InRange(own)
    ensures Frames(legs[k := own], n) && HeardBy(sources, legs[k := own], n, k) == HeardBy(sources, legs, n, k)
  {
    var other := legs[k := own];
    assert Without(other, k) == Without(legs, k);
    forall i | 0 <= i < n ensures HeardBy(sources, other, n, k)[i] == HeardBy(sources, legs, n, k)[i] {
      MixMinus(sources, legs, n, k, i);
      MixMinus(sources, other, n, k, i);
    }
  }

  /** The chat hears the clipped sum of all legs. */
  lemma ChatHearsAll(legs: seq<seq<int>>, n: nat, i: nat)
    requires Frames(legs, n) && i < n && |legs| <= LIMIT
    ensures ChatHears(legs, n)[i] == Clip(Total(legs, n, i)) && Nearest(Total(legs, n, i), ChatHears(legs, n)[i])
  {
    MixedIsTotal(legs, n, i);
  }

  // ---- The object ----

  /** The 20 ms that a buffer contributes, and the buffer afterwards; an empty one is left alone. */
  function Contribution(f: Fifo, n: nat): (xs: seq<int>)
    ensures |xs| == n && InRange(xs)
  {
    if f.buf == [] then Zero(n)
    else if |f.buf| >= 2 * n then Samples(f.buf[..2 * n])
    else Samples(f.buf + Zeros(2 * n - |f.buf|))
  }

  function Rest(f: Fifo, n: nat): Fifo {
    if f.buf == [] then f else Drawn(f, 2 * n, true).fifo
  }

  function Contributions(fifos: seq<Fifo>, n: nat): (frames: seq<seq<int>>)
    ensures |frames| == |fifos| && Frames(frames, n)
  {
    seq(|fifos|, i requires 0 <= i < |fifos| => Contribution(fifos[i], n))
  }

  lemma ContributionsSnoc(fifos: seq<Fifo>, i: nat, n: nat)
    requires i < |fifos|
    ensures Contributions(fifos[..i + 1], n) == Contributions(fifos[..i], n) + [Contribution(fifos[i], n)]
    ensures Mixed(Contributions(fifos[..i + 1], n), n)
            == Add32(Mixed(Contributions(fifos[..i], n), n), Contribution(fifos[i], n))
  {
    hide Contribution;
    var frames := Contributions(fifos[..i + 1], n);
    assert frames == Contributions(fifos[..i], n) + [Contribution(fifos[i], n)];
    assert frames[..|frames| - 1] == Contributions(fifos[..i], n);
  }

  /** A SIP call in the chat with its own sample rate, whether its state lets it hear, and what it was sent. */
  class GroupLeg {
    const buffer: PcmBuffer
    const rate: nat
    var hears: bool
    var heard: seq<bytes>

    constructor (limit: nat, rate: nat, hears: bool)
      ensures this.rate == rate && fresh(buffer) && buffer.max == limit && buffer.View() == Fifo([], 0, 0, 0)
      ensures this.hears == hears && heard == []
    {
      this.rate, this.hears := rate, hears;
      heard := [];
      buffer := new PcmBuffer(limit);
    }
  }

  ghost function Fifos(buffers: seq<PcmBuffer>): (fifos: seq<Fifo>)
    reads buffers
    ensures |fifos| == |buffers| && forall i :: 0 <= i < |buffers| ==> fifos[i] == buffers[i].View()
  {
    seq(|buffers|, i requires 0 <= i < |buffers| reads buffers => buffers[i].View())
  }

  predicate AllDistinct<T(==)>(xs: seq<T>) {
    forall i, j :: 0 <= i < j < |xs| ==> xs[i] != xs[j]
  }

  /** One round of the loops over the buffers: pull 20 ms of each that has any, and add them up. */
  method PullAll(buffers: seq<PcmBuffer>, n: nat) returns (frames: seq<seq<int>>, sum: seq<int>)
    requires AllDistinct(buffers)
    modifies buffers
    ensures frames == Contributions(old(Fifos(buffers)), n) && sum == Mixed(frames, n)
    ensures forall i :: 0 <= i < |buffers| ==> buffers[i].View() == Rest(old(buffers[i].View()), n)
  {
    hide Contribution, Rest, Mixed, Fifos;
    ghost var fifos := Fifos(buffers);
    frames, sum := [], Zero(n);
    NoFrames(fifos, n);
    for i := 0 to |buffers|
      invariant frames == Contributions(fifos[..i], n) && sum == Mixed(frames, n)
      invariant forall j :: 0 <= j < i ==> buffers[j].View() == Rest(fifos[j], n)
      invariant forall j :: i <= j < |buffers| ==> buffers[j].View() == fifos[j]
    {
      ContributionsSnoc(fifos, i, n);
      var data := PullOne(buffers[i], n);
      frames := frames + [data];
      sum := Add32(sum, data);
    }
    assert fifos[..|buffers|] == fifos;
  }

  lemma NoFrames(fifos: seq<Fifo>, n: nat)
    ensures Contributions(fifos[..0], n) == [] && Mixed([], n) == Zero(n)
  {
  }

  method PullOne(buffer: PcmBuffer, n: nat) returns (data: seq<int>)
    modifies buffer
    ensures data == Contribution(old(buffer.View()), n) && buffer.View() == Rest(old(buffer.View()), n)
  {
    if |buffer.buf| == 0 {
      data := Zero(n);
      return;
    }
    var chunk := buffer.Pull(2 * n, true);
    data := Samples(chunk.value);
  }

  class GroupBridge {
    const rate: nat
    const limit: nat
    /** Samples at one rate, as samples at another. */
    const resample: (bytes, nat, nat) -> bytes
    var legs: seq<GroupLeg>
    var sources: map<nat, PcmBuffer>
    /** Frames handed to the voice chat. */
    var chat: seq<bytes>

    constructor (rate: nat, jitterMs: nat, resample: (bytes, nat, nat) -> bytes)
      ensures this.rate == rate && this.resample == resample && legs == [] && sources == map[] && chat == []
    {
      this.rate, this.resample := rate, resample;
      var frame40 := rate * 2 / 100 * 4;
      limit := (if rate * 2 * jitterMs / 1000 > frame40 then rate * 2 * jitterMs / 1000 else frame40) * 4;
      legs, sources, chat := [], map[], [];
    }

    /** `add` */
    method Add(legRate: nat, hears: bool) returns (leg: GroupLeg)
      modifies `legs
      ensures legs == old(legs) + [leg] && fresh(leg) && fresh(leg.buffer)
      ensures leg.heard == [] && leg.hears == hears && leg.rate == legRate
    {
      leg := new GroupLeg(limit, legRate, hears);
      legs := legs + [leg];
    }

    /** `remove` */
    method Remove(leg: GroupLeg)
      modifies `legs
      ensures leg !in old(legs) ==> legs == old(legs)
      ensures leg in old(legs) ==>
              exists i :: 0 <= i < |old(legs)| && old(legs)[i] == leg && legs == old(legs)[..i] + old(legs)[i + 1..]
    {
      for i := 0 to |legs|
        invariant leg !in legs[..i] && legs == old(legs)
      {
        if legs[i] == leg {
          legs := legs[..i] + legs[i + 1..];
          return;
        }
      }
      assert legs[..|legs|] == legs;
    }

    /** `_from_leg`: what a leg says is buffered at the rate of the chat. */
    method FromLeg(leg: GroupLeg, pcm: bytes)
      modifies if leg in legs then {leg.buffer} else {}
      ensures leg in legs ==>
                leg.buffer.View()
                    == Appended(old(leg.buffer.View()), AtRate(resample, pcm, leg.rate, rate), leg.buffer.max)
    {
      if leg in legs {
        leg.buffer.Push(if leg.rate != rate then resample(pcm, leg.rate, rate) else pcm);
      }
    }

    /** `_from_group`: at most 32 people of the chat are heard. */
    method FromGroup(ssrc: nat, pcm: bytes)
      modifies `sources, if ssrc in sources then {sources[ssrc]} else {}
      ensures ssrc in old(sources) ==> sources == old(sources)
                                       && sources[ssrc].View()
                                           == Appended(old(sources[ssrc].View()), pcm, sources[ssrc].max)
      ensures ssrc !in old(sources) && |old(sources)| >= 32 ==> sources == old(sources)
      ensures ssrc !in old(sources) && |old(sources)| < 32 ==>
                && ssrc in sources && fresh(sources[ssrc]) && sources == old(sources)[ssrc := sources[ssrc]]
                && sources[ssrc].View() == Appended(Fifo([], 0, 0, 0), pcm, limit)
      ensures |old(sources)| <= 32 ==> |sources| <= 32
    {
      if ssrc in sources {
        sources[ssrc].Push(pcm);
        return;
      }
      if |sources| >= 32 {
        return;
      }
      var buffer := new PcmBuffer(limit);
      sources := sources[ssrc := buffer];
      buffer.Push(pcm);
    }

    /** `_pump`, the sources given in the order of the dictionary. */
    method Pump(order: seq<PcmBuffer>)
      requires AllDistinct(order + BuffersOf(legs)) && AllDistinct(legs) && |order| + |legs| <= LIMIT
      modifies this, order, BuffersOf(legs), legs
      ensures legs == old(legs)
      ensures var n := rate * 2 / 100;
              var spoken := Contributions(old(Fifos(order)), n);
                  var calls := Contributions(old(Fifos(BuffersOf(legs))), n);
              && |calls| == |legs|
              && chat == old(chat) + [Pcm(ChatHears(calls, n))[..n], Pcm(ChatHears(calls, n))[n..]]
              && forall k :: 0 <= k < |legs| ==>
                   legs[k].heard
                       == old(legs[k].heard)
                           + Sent(old(legs[k].hears), spoken, calls, n, k, resample, rate, legs[k].rate)
    {
      hide Contribution, Rest, Mixed, Fifos, Contributions, Pcm, Clipped, Sub32, Add32;
      var n := rate * 2 / 100;
      Halves(order, BuffersOf(legs));
      ghost var buffers := BuffersOf(legs);
      ghost var before := Fifos(buffers);
      var spoken, remote := PullAll(order, n);
      SameFifos(buffers, before);
      var calls, pbx := PullAll(BuffersOf(legs), n);
      var out := Pcm(Clipped(pbx));
      chat := chat + [out[..n], out[n..]];
      SendMixes(n, spoken, calls, remote, pbx);
    }

    /** The last loop of `_pump`: every leg whose state lets it hear is sent its mix. */
    method SendMixes(n: nat, ghost spoken: seq<seq<int>>, calls: seq<seq<int>>, remote: seq<int>, pbx: seq<int>)
      requires Frames(spoken, n) && Frames(calls, n) && |calls| == |legs| && AllDistinct(legs)
      requires remote == Mixed(spoken, n) && pbx == Mixed(calls, n)
      modifies legs
      ensures forall k :: 0 <= k < |legs| ==> legs[k].hears == old(legs[k].hears)
      ensures forall k :: 0 <= k < |legs| ==>
              legs[k].heard
                  == old(legs[k].heard) + Sent(old(legs[k].hears), spoken, calls, n, k, resample, rate, legs[k].rate)
    {
      hide Mixed, Pcm, Clipped, Sub32, Add32;
      for k := 0 to |legs|
        invariant forall j :: 0 <= j < |legs| ==> legs[j].hears == old(legs[j].hears)
        invariant forall j :: 0 <= j < k ==>
                legs[j].heard
                    == old(legs[j].heard) + Sent(old(legs[j].hears), spoken, calls, n, j, resample, rate, legs[j].rate)
        invariant forall j :: k <= j < |legs| ==> legs[j].heard == old(legs[j].heard)
      {
        var mix := Pcm(Clipped(Sub32(Add32(remote, pbx), calls[k])));
        if legs[k].hears {
          legs[k].heard := legs[k].heard + [if legs[k].rate != rate then resample(mix, rate, legs[k].rate) else mix];
        } else {
          assert legs[k].heard + [] == legs[k].heard;
        }
      }
    }
  }

  /** What leg k is sent, at its own rate, if its state lets it hear. */
  function Sent(hears: bool, sources: seq<seq<int>>, legs: seq<seq<int>>, n: nat, k: nat,
                resample: (bytes, nat, nat) -> bytes, rate: nat, legRate: nat): seq<bytes>
    requires Frames(sources, n) && Frames(legs, n) && k < |legs|
  {
    if hears then [AtRate(resample, Pcm(HeardBy(sources, legs, n, k)), rate, legRate)] else []
  }

  function BuffersOf(legs: seq<GroupLeg>): (buffers: seq<PcmBuffer>)
    ensures |buffers| == |legs| && forall i :: 0 <= i < |legs| ==> buffers[i] == legs[i].buffer
  {
    seq(|legs|, i requires 0 <= i < |legs| => legs[i].buffer)
  }

  lemma SameFifos(buffers: seq<PcmBuffer>, before: seq<Fifo>)
    requires |before| == |buffers| && forall i :: 0 <= i < |buffers| ==> buffers[i].View() == before[i]
    ensures Fifos(buffers) == before
  {
  }

  lemma Halves(a: seq<PcmBuffer>, b: seq<PcmBuffer>)
    requires AllDistinct(a + b)
    ensures AllDistinct(a) && AllDistinct(b) && forall j :: 0 <= j < |b| ==> b[j] !in a
  {
    var all := a + b;
    forall i, j | 0 <= i < j < |a| ensures a[i] != a[j] {
      assert all[i] == a[i] && all[j] == a[j];
    }
    forall i, j | 0 <= i < j < |b| ensures b[i] != b[j] {
      assert all[|a| + i] == b[i] && all[|a| + j] == b[j];
    }
    forall j | 0 <= j < |b| ensures b[j] !in a {
      forall x | x in a ensures x != b[j] {
        var i :| 0 <= i < |a| && a[i] == x;
        assert all[i] == x && all[|a| + j] == b[j];
      }
    }
  }
}
