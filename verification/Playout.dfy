/** What is said on Telegram and what is heard on SIP (sipgram/bridge.py:157-186): the audio that `CallBridge`
    plays, over any sequence of what Telegram delivers and of pumps. */
module Playout {
  import opened Options
  import opened Sequences
  import opened Bytes
  import opened PcmBuffers
  import opened PcmSamples
  import opened CallBridges
  import opened Rtp

  /** Telegram delivers samples; the clock pumps once. */
  datatype Act = Says(pcm: bytes) | Pumps

  /** The buffer's story, and for every pump the payload it sent, how many bytes were in the buffer, how many had
      left it by then, and how many of these had been dropped. */
  datatype Talk = Talk(story: Story, primed: bool, payloads: seq<bytes>, resident: seq<nat>, left: seq<nat>,
                       lost: seq<nat>)

  function TalkOf(v: Voice, acts: seq<Act>, max: nat, jitter: nat, frame: nat): Talk
    decreases |acts|
  {
    if acts == [] then Talk(Story(Fifo([], 0, 0, 0), [], 0, 0), false, [], [], [], [])
    else
      var t := TalkOf(v, acts[..|acts| - 1], max, jitter, frame);
      match acts[|acts| - 1]
      case Says(pcm) => t.(story := Next(t.story, Op.Push(pcm), max))
      case Pumps =>
        var p := Pump(t.story.fifo, t.primed, jitter, frame);
        Talk(t.story.(fifo := p.fifo, delivered := t.story.delivered + (|t.story.fifo.buf| - |p.fifo.buf|)), p.primed,
             t.payloads + [Payload(v, p.play)], t.resident + [|t.story.fifo.buf|], t.left + [Gone(t.story)],
             t.lost + [t.story.fifo.dropped])
  }

  /** Pump k is heard: the buffer was filled to the margin at some pump up to then, and has not been empty since. */
  predicate Audible(resident: seq<nat>, jitter: nat, k: nat)
    requires k < |resident|
  {
    exists j :: 0 <= j <= k && resident[j] >= jitter && forall m :: j <= m <= k ==> resident[m] > 0
  }

  /** How many bytes of the stream pump k plays. */
  function Played(resident: seq<nat>, jitter: nat, frame: nat, k: nat): nat
    requires k < |resident|
  {
    if !Audible(resident, jitter, k) then 0 else if resident[k] < frame then resident[k] else frame
  }

  lemma AudibleNow(resident: seq<nat>, jitter: nat, r: nat)
    requires jitter > 0
    ensures var all := resident + [r]; var k := |resident|;
            Audible(all, jitter, k) <==> r > 0 && (r >= jitter || (k > 0 && Audible(resident, jitter, k - 1)))
  {
    var all, k := resident + [r], |resident|;
    if Audible(all, jitter, k) {
      var j :| 0 <= j <= k && all[j] >= jitter && forall m :: j <= m <= k ==> all[m] > 0;
      if j < k {
        assert forall m :: j <= m <= k - 1 ==> resident[m] == all[m];
        assert Audible(resident, jitter, k - 1);
      } else {
        assert all[k] == r;
      }
    }
    if r > 0 && r >= jitter {
      assert all[k] >= jitter;
    } else if r > 0 && k > 0 && Audible(resident, jitter, k - 1) {
      var j :| 0 <= j <= k - 1 && resident[j] >= jitter && forall m :: j <= m <= k - 1 ==> resident[m] > 0;
      assert all[j] >= jitter && forall m :: j <= m <= k ==> all[m] > 0;
    }
  }

  lemma AudibleBefore(resident: seq<nat>, jitter: nat, r: nat, k: nat)
    requires k < |resident|
    ensures Audible(resident + [r], jitter, k) <==> Audible(resident, jitter, k)
  {
    var all := resident + [r];
    if j :| 0 <= j <= k && resident[j] >= jitter && forall m :: j <= m <= k ==> resident[m] > 0 {
      assert all[j] >= jitter && forall m :: j <= m <= k ==> all[m] > 0;
    }
    if j :| 0 <= j <= k && all[j] >= jitter && forall m :: j <= m <= k ==> all[m] > 0 {
      assert resident[j] == all[j] && forall m :: j <= m <= k ==> resident[m] == all[m];
    }
  }

  /** What pump k sends: the next stretch of the stream, filled up with silence if the buffer runs out in it; or
      silence. */
  predicate Hears(v: Voice, stream: bytes, payload: bytes, audible: bool, at: nat, played: nat, frame: nat) {
    && played <= frame && at + played <= |stream|
    && payload == if audible then
                    v.encode(AtRate(v.resample, stream[at..at + played] + Zeros(frame - played), v.rate, v.sipRate))
                  else v.silence(v.sipRate / 50)
  }

  predicate Shaped(t: Talk) {
    |t.resident| == |t.payloads| && |t.left| == |t.payloads| && |t.lost| == |t.payloads|
  }

  predicate AllHeard(v: Voice, t: Talk, jitter: nat, frame: nat)
    requires Shaped(t)
  {
    forall k :: 0 <= k < |t.payloads| ==> HeardAt(v, t, jitter, frame, k)
  }

  predicate HeardAt(v: Voice, t: Talk, jitter: nat, frame: nat, k: nat)
    requires Shaped(t) && k < |t.payloads|
  {
    Hears(v, t.story.stream, t.payloads[k], Audible(t.resident, jitter, k), t.left[k],
          Played(t.resident, jitter, frame, k), frame)
  }

  /** How many bytes have left the buffer by pump k, or by now, and how many of them were dropped. */
  function LeftBy(t: Talk, k: nat): nat
    requires Shaped(t)
  {
    if k < |t.left| then t.left[k] else Gone(t.story)
  }

  function LostBy(t: Talk, k: nat): nat
    requires Shaped(t)
  {
    if k < |t.lost| then t.lost[k] else t.story.fifo.dropped
  }

  /** From pump k to the next, or to now, nothing leaves the buffer but what it plays and what is dropped. */
  predicate Link(t: Talk, jitter: nat, frame: nat, k: nat)
    requires Shaped(t) && k < |t.payloads|
  {
    && LostBy(t, k) <= LostBy(t, k + 1)
    && LeftBy(t, k + 1) - LeftBy(t, k) == Played(t.resident, jitter, frame, k) + (LostBy(t, k + 1) - LostBy(t, k))
  }

  predicate Linked(t: Talk, jitter: nat, frame: nat)
    requires Shaped(t)
  {
    LeftBy(t, 0) == LostBy(t, 0) && forall k :: 0 <= k < |t.payloads| ==> Link(t, jitter, frame, k)
  }

  predicate Faithful(v: Voice, t: Talk, jitter: nat, frame: nat) {
    Shaped(t) && AllHeard(v, t, jitter, frame) && Linked(t, jitter, frame)
  }

  lemma HearsLonger(v: Voice, stream: bytes, more: bytes, payload: bytes, audible: bool, at: nat, played: nat,
                   frame: nat)
    requires Hears(v, stream, payload, audible, at, played, frame)
    ensures Hears(v, stream + more, payload, audible, at, played, frame)
  {
    assert (stream + more)[at..at + played] == stream[at..at + played];
  }

  lemma SaysFaithful(v: Voice, t: Talk, pcm: bytes, max: nat, jitter: nat, frame: nat)
    requires Faithful(v, t, jitter, frame)
    ensures Faithful(v, t.(story := Next(t.story, Op.Push(pcm), max)), jitter, frame)
  {
    hide Audible, Played, Hears;
    var u := t.(story := Next(t.story, Op.Push(pcm), max));
    forall k | 0 <= k < |t.payloads| ensures HeardAt(v, u, jitter, frame, k) && Link(u, jitter, frame, k) {
      assert HeardAt(v, t, jitter, frame, k) && Link(t, jitter, frame, k);
      HearsLonger(v, t.story.stream, pcm, t.payloads[k], Audible(t.resident, jitter, k), t.left[k],
                  Played(t.resident, jitter, frame, k), frame);
    }
  }

  /** One pump on a buffer that is the end of the stream. */
  lemma PumpHears(v: Voice, s: Story, primed: bool, audible: bool, max: nat, jitter: nat, frame: nat)
    requires Accounted(s, max) && 0 < frame <= jitter
    requires audible <==> s.fifo.buf != [] && (primed || |s.fifo.buf| >= jitter)
    ensures var p := Pump(s.fifo, primed, jitter, frame); var r := |s.fifo.buf|;
            var played := if !audible then 0 else if r < frame then r else frame;
            && p.primed == audible && r - |p.fifo.buf| == played
            && Hears(v, s.stream, Payload(v, p.play), audible, Gone(s), played, frame)
            && p.fifo.dropped == s.fifo.dropped
  {
    var r, at := |s.fifo.buf|, Gone(s);
    var played := if !audible then 0 else if r < frame then r else frame;
    assert s.stream[at..] == s.fifo.buf;
    assert s.stream[at..at + played] == s.fifo.buf[..played];
    if audible {
      if r >= frame {
        assert s.fifo.buf[..played] + Zeros(0) == s.fifo.buf[..played];
      } else {
        assert s.fifo.buf[..played] == s.fifo.buf;
      }
    }
  }

  lemma PumpsFaithful(v: Voice, t: Talk, u: Talk, max: nat, jitter: nat, frame: nat)
    requires Faithful(v, t, jitter, frame) && Accounted(t.story, max) && 0 < frame <= jitter
    requires t.primed <==> t.resident != [] && Audible(t.resident, jitter, |t.resident| - 1)
    requires var p := Pump(t.story.fifo, t.primed, jitter, frame);
             u == Talk(t.story.(fifo := p.fifo, delivered := t.story.delivered + (|t.story.fifo.buf| - |p.fifo.buf|)),
                       p.primed, t.payloads + [Payload(v, p.play)], t.resident + [|t.story.fifo.buf|],
                       t.left + [Gone(t.story)], t.lost + [t.story.fifo.dropped])
    ensures Faithful(v, u, jitter, frame)
    ensures u.primed <==> u.resident != [] && Audible(u.resident, jitter, |u.resident| - 1)
  {
    hide Audible, Hears, Pump, Payload, Played;
    var n, r := |t.payloads|, |t.story.fifo.buf|;
    AudibleNow(t.resident, jitter, r);
    PumpHears(v, t.story, t.primed, Audible(u.resident, jitter, n), max, jitter, frame);
    PlayedNow(u.resident, jitter, frame, n);
    forall k | 0 <= k < n + 1 ensures HeardAt(v, u, jitter, frame, k) && Link(u, jitter, frame, k) {
      if k < n {
        AudibleBefore(t.resident, jitter, r, k);
        PlayedBefore(t.resident, jitter, frame, r, k);
        assert HeardAt(v, t, jitter, frame, k) && Link(t, jitter, frame, k);
      }
    }
  }

  lemma PlayedNow(resident: seq<nat>, jitter: nat, frame: nat, k: nat)
    requires k < |resident|
    ensures Played(resident, jitter, frame, k)
            == if !Audible(resident, jitter, k) then 0 else if resident[k] < frame then resident[k] else frame
  {
    hide Audible;
  }

  lemma PlayedBefore(resident: seq<nat>, jitter: nat, frame: nat, r: nat, k: nat)
    requires k < |resident|
    ensures Played(resident + [r], jitter, frame, k) == Played(resident, jitter, frame, k)
  {
    hide Audible;
    AudibleBefore(resident, jitter, r, k);
  }

  /** The buffer's story is one that PcmBuffers tells. */
  lemma {:induction false} TalkAccounted(v: Voice, acts: seq<Act>, max: nat, jitter: nat, frame: nat)
    ensures Accounted(TalkOf(v, acts, max, jitter, frame).story, max)
    decreases |acts|
  {
    hide Payload;
    if acts != [] {
      var t := TalkOf(v, acts[..|acts| - 1], max, jitter, frame);
      TalkAccounted(v, acts[..|acts| - 1], max, jitter, frame);
      match acts[|acts| - 1] {
        case Says(pcm) => PushAccounted(t.story, pcm, max);
        case Pumps => PullAccounted(t.story, frame, false, max);
      }
    }
  }

  lemma {:induction false} TalkFaithful(v: Voice, acts: seq<Act>, max: nat, jitter: nat, frame: nat)
    requires 0 < frame <= jitter
    ensures var t := TalkOf(v, acts, max, jitter, frame);
            && Faithful(v, t, jitter, frame)
            && (t.primed <==> t.resident != [] && Audible(t.resident, jitter, |t.resident| - 1))
    decreases |acts|
  {
    hide Audible, Faithful, Pump, Payload;
    if acts == [] {
      NothingSaid(v, jitter, frame);
    } else {
      var before := acts[..|acts| - 1];
      var t := TalkOf(v, before, max, jitter, frame);
      TalkFaithful(v, before, max, jitter, frame);
      TalkAccounted(v, before, max, jitter, frame);
      match acts[|acts| - 1] {
        case Says(pcm) => SaysFaithful(v, t, pcm, max, jitter, frame);
        case Pumps => PumpsFaithful(v, t, TalkOf(v, acts, max, jitter, frame), max, jitter, frame);
      }
    }
  }

  lemma NothingSaid(v: Voice, jitter: nat, frame: nat)
    ensures Faithful(v, Talk(Story(Fifo([], 0, 0, 0), [], 0, 0), false, [], [], [], []), jitter, frame)
  {
  }

  /** Whatever Telegram delivers and whenever the clock pumps: pump k sends the encoding of the stretch of the
      stream that follows everything that has left the buffer, filled up with silence if the buffer runs out in it,
      when the buffer has been filled to the margin and has not been empty since; and silence otherwise. */
  lemma SpokenIsHeard(v: Voice, acts: seq<Act>, max: nat, jitter: nat, frame: nat, k: nat)
    requires 0 < frame <= jitter && k < |TalkOf(v, acts, max, jitter, frame).payloads|
    ensures var t := TalkOf(v, acts, max, jitter, frame);
            && |t.resident| == |t.payloads| && |t.left| == |t.payloads|
            && if Audible(t.resident, jitter, k) then
                 var played := if t.resident[k] < frame then t.resident[k] else frame;
                 && t.left[k] + played <= |t.story.stream|
                 && t.payloads[k] == v.encode(AtRate(v.resample, t.story.stream[t.left[k]..t.left[k] + played]
                                                                 + Zeros(frame - played), v.rate, v.sipRate))
               else t.payloads[k] == v.silence(v.sipRate / 50)
  {
    hide Audible;
    TalkFaithful(v, acts, max, jitter, frame);
    var t := TalkOf(v, acts, max, jitter, frame);
    assert HeardAt(v, t, jitter, frame, k);
  }

  /** Nothing leaves the buffer but what is played and what is dropped when it is full; without drops the stretches that
      the pumps play follow on one another from the beginning. */
  lemma StretchesFollow(v: Voice, acts: seq<Act>, max: nat, jitter: nat, frame: nat, k: nat)
    requires 0 < frame <= jitter && k < |TalkOf(v, acts, max, jitter, frame).payloads|
    ensures var t := TalkOf(v, acts, max, jitter, frame);
            && Shaped(t) && LeftBy(t, 0) == LostBy(t, 0) && LostBy(t, k) <= LostBy(t, k + 1)
            && LeftBy(t, k + 1) - LeftBy(t, k)
               == Played(t.resident, jitter, frame, k) + (LostBy(t, k + 1) - LostBy(t, k))
            && (t.story.fifo.dropped == 0 ==>
                 LeftBy(t, 0) == 0 && LeftBy(t, k + 1) == LeftBy(t, k) + Played(t.resident, jitter, frame, k))
  {
    hide Audible, Played;
    TalkFaithful(v, acts, max, jitter, frame);
    var t := TalkOf(v, acts, max, jitter, frame);
    assert Link(t, jitter, frame, k);
    LostGrows(t, jitter, frame, 0);
    LostGrows(t, jitter, frame, k);
    if k + 1 < |t.payloads| {
      LostGrows(t, jitter, frame, k + 1);
    }
  }

  lemma {:induction false} LostGrows(t: Talk, jitter: nat, frame: nat, k: nat)
    requires Shaped(t) && Linked(t, jitter, frame) && k < |t.payloads|
    ensures LostBy(t, k) <= t.story.fifo.dropped
    decreases |t.payloads| - k
  {
    hide Audible, Played;
    assert Link(t, jitter, frame, k);
    if k + 1 < |t.payloads| {
      LostGrows(t, jitter, frame, k + 1);
    }
  }

  /** With equal rates and a codec that loses nothing, the far end gets those stretches back. */
  lemma FarEndHears(v: Voice, decode: bytes -> bytes, acts: seq<Act>, max: nat, jitter: nat, frame: nat, k: nat)
    requires 0 < frame <= jitter && k < |TalkOf(v, acts, max, jitter, frame).payloads|
    requires v.rate == v.sipRate && forall pcm :: decode(v.encode(pcm)) == pcm
    ensures var t := TalkOf(v, acts, max, jitter, frame);
            && |t.resident| == |t.payloads| && |t.left| == |t.payloads|
            && (Audible(t.resident, jitter, k) ==>
                 var played := if t.resident[k] < frame then t.resident[k] else frame;
                 && t.left[k] + played <= |t.story.stream|
                 && decode(t.payloads[k])
                    == t.story.stream[t.left[k]..t.left[k] + played] + Zeros(frame - played))
  {
    SpokenIsHeard(v, acts, max, jitter, frame, k);
  }

  // ---- On the wire ----

  /** A receiver finds in packet k of a stretch exactly the payload of what was played. */
  lemma {:induction false} PayloadsArrive(v: Voice, o: Origin, plays: seq<Play>, k: nat)
    requires k < |plays|
    ensures var got := Decode(PacketsOf(v, o, plays)[k]);
            && got.Some? && got.value.payload == Payload(v, plays[k])
            && got.value.number == Low16(o.number + k) && got.value.timestamp == StampAt(o.timestamp, k, v.sipRate)
            && (got.value.marker <==> k == 0 && o.marked)
    decreases |plays|
  {
    hide Encode, Decode, Low16, StampAt, Payload;
    if k < |plays| - 1 {
      PayloadsArrive(v, o, plays[..|plays| - 1], k);
    } else {
      DecodeEncode(Packet(k == 0 && o.marked, o.payloadType, Low16(o.number + k), StampAt(o.timestamp, k, v.sipRate),
                          o.ssrc, Payload(v, plays[k])));
    }
  }

  /** n pumps in a row play what n single pumps play. */
  lemma {:induction false} SpellIsPumps(v: Voice, acts: seq<Act>, max: nat, jitter: nat, frame: nat, n: nat)
    ensures var t := TalkOf(v, acts, max, jitter, frame); var u := TalkOf(v, acts + Times(n), max, jitter, frame);
            var s := PumpTimes(t.story.fifo, t.primed, jitter, frame, n);
            && u.story.fifo == s.fifo && u.primed == s.primed && u.payloads == t.payloads + PayloadsOf(v, s.plays)
  {
    hide TalkOf, PumpTimes, PayloadsOf, Pump, Payload, Times;
    var t := TalkOf(v, acts, max, jitter, frame);
    if n == 0 {
      NoTimes(v, t, jitter, frame);
      assert acts + [] == acts && t.payloads + [] == t.payloads;
    } else {
      var before := acts + Times(n - 1);
      SpellIsPumps(v, acts, max, jitter, frame, n - 1);
      OneMoreTime(acts, n);
      var s := PumpTimes(t.story.fifo, t.primed, jitter, frame, n - 1);
      var p := Pump(s.fifo, s.primed, jitter, frame);
      LastPump(v, before, max, jitter, frame);
      NextSpell(t.story.fifo, t.primed, jitter, frame, n);
      PayloadsSnoc(v, s.plays, p.play);
      Regroup(t.payloads, PayloadsOf(v, s.plays), [Payload(v, p.play)]);
    }
  }

  lemma NoTimes(v: Voice, t: Talk, jitter: nat, frame: nat)
    ensures Times(0) == [] && PumpTimes(t.story.fifo, t.primed, jitter, frame, 0) == Spell([], t.story.fifo, t.primed)
    ensures PayloadsOf(v, []) == []
  {
  }

  lemma OneMoreTime(acts: seq<Act>, n: nat)
    requires n > 0
    ensures acts + Times(n) == (acts + Times(n - 1)) + [Pumps]
  {
  }

  lemma LastPump(v: Voice, acts: seq<Act>, max: nat, jitter: nat, frame: nat)
    ensures var t := TalkOf(v, acts, max, jitter, frame); var u := TalkOf(v, acts + [Pumps], max, jitter, frame);
            var p := Pump(t.story.fifo, t.primed, jitter, frame);
            u.story.fifo == p.fifo && u.primed == p.primed && u.payloads == t.payloads + [Payload(v, p.play)]
  {
    hide Pump, Payload;
    assert (acts + [Pumps])[..|acts|] == acts;
  }

  lemma NextSpell(f: Fifo, primed: bool, jitter: nat, frame: nat, n: nat)
    requires n > 0
    ensures var s := PumpTimes(f, primed, jitter, frame, n - 1); var p := Pump(s.fifo, s.primed, jitter, frame);
            PumpTimes(f, primed, jitter, frame, n) == Spell(s.plays + [p.play], p.fifo, p.primed)
  {
    hide Pump;
  }

  lemma PayloadsSnoc(v: Voice, plays: seq<Play>, play: Play)
    ensures PayloadsOf(v, plays + [play]) == PayloadsOf(v, plays) + [Payload(v, play)]
  {
    hide Payload;
    assert (plays + [play])[..|plays|] == plays;
  }

  function Times(n: nat): (acts: seq<Act>)
    ensures |acts| == n
  {
    if n == 0 then [] else Times(n - 1) + [Pumps]
  }

  function PayloadsOf(v: Voice, plays: seq<Play>): seq<bytes> {
    if plays == [] then [] else PayloadsOf(v, plays[..|plays| - 1]) + [Payload(v, plays[|plays| - 1])]
  }
}
