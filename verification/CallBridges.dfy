/** `CallBridge` (sipgram/bridge.py): the 20 ms clock that paces Telegram audio onto RTP, and SIP audio into 10 ms
    frames. */
module CallBridges {
  import opened Options
  import opened Sequences
  import opened Bytes
  import opened PcmBuffers
  import opened PcmSamples
  import opened Rtp
  import opened RtpSessions

  /** Seconds. */
  const TICK: real := 0.02

  // ---- The clock ----

  /** How often `_tick` pumps when its next pump is due at `next`. */
  function Due(next: real, now: real): nat
    decreases ((now - next) / TICK).Floor + 1
  {
    if next > now then 0
    else
      Closer(next, now);
      1 + Due(next + TICK, now)
  }

  lemma DueStep(next: real, now: real)
    ensures next <= now ==> Due(next, now) == 1 + Due(next + TICK, now)
    ensures next > now ==> Due(next, now) == 0
  {
  }

  lemma Closer(next: real, now: real)
    requires next <= now
    ensures ((now - (next + TICK)) / TICK).Floor + 1 == ((now - next) / TICK).Floor >= 0
  {
    assert (now - (next + TICK)) / TICK == (now - next) / TICK - 1.0;
    assert (now - next) / TICK >= 0.0;
  }

  lemma {:induction false} DueStops(next: real, now: real)
    ensures next + Due(next, now) as real * TICK > now
    ensures Due(next, now) > 0 ==> next + (Due(next, now) - 1) as real * TICK <= now
    decreases ((now - next) / TICK).Floor + 1
  {
    if next <= now {
      Closer(next, now);
      DueStops(next + TICK, now);
    }
  }

  /** The pumps depend on the time that has passed only, not on when the timer happened to run in between. */
  lemma {:induction false} TicksAddUp(next: real, now: real, later: real)
    requires now <= later
    ensures Due(next, later) == Due(next, now) + Due(next + Due(next, now) as real * TICK, later)
    decreases ((now - next) / TICK).Floor + 1
  {
    if next <= now {
      Closer(next, now);
      TicksAddUp(next + TICK, now, later);
      assert next + TICK + Due(next + TICK, now) as real * TICK == next + Due(next, now) as real * TICK;
    } else {
      assert next + 0.0 * TICK == next;
    }
  }

  /** One pump per 20 ms since the bridge was started, whatever the ticks in between. */
  lemma {:induction false} OnePumpPerTick(start: real, now: real)
    requires start <= now
    ensures Due(start + TICK, now) == ((now - start) / TICK).Floor
    decreases ((now - start) / TICK).Floor
  {
    if start + TICK <= now {
      Closer(start, now);
      OnePumpPerTick(start + TICK, now);
    } else {
      assert (now - start) / TICK < 1.0;
    }
  }

  // ---- One pump ----

  /** What one pump plays to SIP, and what becomes of the jitter buffer. */
  datatype Play = Silence | Audio(chunk: bytes)

  datatype Pumped = Pumped(play: Play, fifo: Fifo, primed: bool)

  /** The buffer must fill up to the jitter margin before it is played, and again after it has run dry. */
  function Pump(f: Fifo, primed: bool, jitter: nat, frame: nat): Pumped {
    if !primed && |f.buf| < jitter then Pumped(Silence, f, false)
    else
      var p := Drawn(f, frame, false);
      if p.out.None? then Pumped(Silence, p.fifo, false) else Pumped(Audio(p.out.value), p.fifo, true)
  }

  /** Some pumps in a row. */
  datatype Spell = Spell(plays: seq<Play>, fifo: Fifo, primed: bool)

  function PumpTimes(f: Fifo, primed: bool, jitter: nat, frame: nat, n: nat): (s: Spell)
    ensures |s.plays| == n
  {
    if n == 0 then Spell([], f, primed)
    else
      var s := PumpTimes(f, primed, jitter, frame, n - 1);
      var p := Pump(s.fifo, s.primed, jitter, frame);
      Spell(s.plays + [p.play], p.fifo, p.primed)
  }

  /** The SIP codec (16-bit samples to a payload, and silence), the resampler (samples, their rate, the rate wanted) and
      the rates of Telegram and SIP. */
  datatype Voice = Voice(encode: bytes -> bytes, silence: nat -> bytes, resample: (bytes, nat, nat) -> bytes, rate: nat,
                         sipRate: nat)

  /** The payload for what is played. */
  function Payload(v: Voice, play: Play): bytes {
    match play
    case Silence => v.silence(v.sipRate / 50)
    case Audio(chunk) => v.encode(AtRate(v.resample, chunk, v.rate, v.sipRate))
  }

  /** Where the packets of a stretch start: marker, payload type, number, timestamp, source. */
  datatype Origin = Origin(marked: bool, payloadType: u7, number: u16, timestamp: u32, ssrc: u32)

  /** The timestamp after k packets of 20 ms. */
  function StampAt(timestamp: u32, k: nat, sipRate: nat): u32 {
    Low32(timestamp + k * (sipRate / 50))
  }

  lemma StampNext(timestamp: u32, k: nat, sipRate: nat)
    ensures StampAt(timestamp, 0, sipRate) == timestamp
    ensures Low32(StampAt(timestamp, k, sipRate) + sipRate / 50) == StampAt(timestamp, k + 1, sipRate)
  {
    var step := sipRate / 50;
    TimeModulo(timestamp + k * step, step);
    assert (k + 1) * step == k * step + step;
  }

  /** Where the next packet starts after one of 20 ms, and after k of them. */
  function Stepped(o: Origin, sipRate: nat): Origin {
    Origin(false, o.payloadType, Low16(o.number + 1), Low32(o.timestamp + sipRate / 50), o.ssrc)
  }

  function OriginAt(o: Origin, k: nat, sipRate: nat): Origin {
    Origin(k == 0 && o.marked, o.payloadType, Low16(o.number + k), StampAt(o.timestamp, k, sipRate), o.ssrc)
  }

  lemma OriginNext(o: Origin, k: nat, sipRate: nat)
    ensures OriginAt(o, 0, sipRate) == o && OriginAt(o, k + 1, sipRate) == Stepped(OriginAt(o, k, sipRate), sipRate)
  {
    hide StampAt;
    StampNext(o.timestamp, k, sipRate);
    NextNumber(o.number + k);
  }

  function PacketFrom(o: Origin, payload: bytes): bytes {
    Encode(Packet(o.marked, o.payloadType, o.number, o.timestamp, o.ssrc, payload))
  }

  function PacketAt(v: Voice, o: Origin, k: nat, play: Play): bytes {
    PacketFrom(OriginAt(o, k, v.sipRate), Payload(v, play))
  }

  /** One packet of 20 ms for each play. */
  function PacketsOf(v: Voice, o: Origin, plays: seq<Play>): (packets: seq<bytes>)
    ensures |packets| == |plays|
  {
    if plays == [] then []
    else PacketsOf(v, o, plays[..|plays| - 1]) + [PacketAt(v, o, |plays| - 1, plays[|plays| - 1])]
  }

  lemma PacketsSnoc(v: Voice, o: Origin, plays: seq<Play>, play: Play)
    ensures PacketsOf(v, o, plays + [play]) == PacketsOf(v, o, plays) + [PacketAt(v, o, |plays|, play)]
  {
    hide PacketAt;
    assert (plays + [play])[..|plays|] == plays;
  }

  /** 20 ms of 16-bit samples at rate R, resampled to rate r, are r / 50 samples. */
  lemma ResampledLength(rate: nat, sipRate: nat)
    requires rate > 0 && rate % 50 == 0
    ensures rate * 2 / 100 * 2 / 2 == rate / 50
    ensures rate / 50 * sipRate / rate == sipRate / 50
  {
    var k := rate / 50;
    assert rate == 50 * k;
    Cancel(k, sipRate);
  }

  lemma Cancel(k: nat, r: nat)
    requires k > 0
    ensures k * r / (50 * k) == r / 50
  {
    var q, m := r / 50, r % 50;
    assert k * r == (50 * k) * q + k * m;
    assert 0 <= k * m < k * 50;
    FloorUnique(k * r, 50 * k, q);
  }

  lemma FloorUnique(n: int, d: int, q: int)
    requires d > 0 && d * q <= n < d * q + d
    ensures n / d == q
  {
    var x := n / d;
    assert d * x <= n < d * x + d;
    Smaller(d, x, q + 1);
    Smaller(d, q, x + 1);
  }

  lemma Smaller(d: int, a: int, b: int)
    requires d > 0 && d * a < d * b
    ensures a < b
  {
  }

  // ---- Incoming audio ----

  function Flat(frames: seq<bytes>): bytes {
    if frames == [] then [] else frames[0] + Flat(frames[1..])
  }

  lemma {:induction false} FlatSnoc(frames: seq<bytes>, last: bytes)
    ensures Flat(frames + [last]) == Flat(frames) + last
    decreases |frames|
  {
    if frames == [] {
      assert Flat([last]) == last + Flat([]);
    } else {
      assert (frames + [last])[1..] == frames[1..] + [last];
      FlatSnoc(frames[1..], last);
    }
  }

  // ---- Side tone and recording ----

  /** The first n bytes, with silence for what is missing, and what comes after them. */
  function Padded(pcm: bytes, n: nat): (r: bytes)
    ensures |r| == n
  {
    if |pcm| >= n then pcm[..n] else pcm + Zeros(n - |pcm|)
  }

  function After(pcm: bytes, n: nat): bytes {
    if |pcm| >= n then pcm[n..] else []
  }

  function Sums(a: seq<int>, b: seq<int>): seq<int>
    requires |a| == |b|
  {
    seq(|a|, i requires 0 <= i < |a| => a[i] + b[i])
  }

  /** `_mix_sidetone`: what is left of the tone is mixed into the frame. */
  function Toned(frame: bytes, tone: bytes): bytes {
    if tone == [] then frame else Pcm(Clipped(Sums(Samples(frame), Samples(Padded(tone, |frame|)))))
  }

  function TonedAll(frames: seq<bytes>, tone: bytes): (toned: seq<bytes>)
    ensures |toned| == |frames|
    decreases |frames|
  {
    if frames == [] then []
    else
      var front, last := frames[..|frames| - 1], frames[|frames| - 1];
      TonedAll(front, tone) + [Toned(last, ToneLeft(front, tone))]
  }

  function ToneLeft(frames: seq<bytes>, tone: bytes): bytes
    decreases |frames|
  {
    if frames == [] then tone
    else After(ToneLeft(frames[..|frames| - 1], tone), |frames[|frames| - 1]|)
  }

  lemma TonedSnoc(frames: seq<bytes>, frame: bytes, tone: bytes)
    ensures TonedAll(frames + [frame], tone) == TonedAll(frames, tone) + [Toned(frame, ToneLeft(frames, tone))]
    ensures ToneLeft(frames + [frame], tone) == After(ToneLeft(frames, tone), |frame|)
  {
    hide Toned, After;
    assert (frames + [frame])[..|frames|] == frames;
  }

  /** Without a side tone nothing is changed. */
  lemma {:induction false} NoTone(frames: seq<bytes>)
    ensures TonedAll(frames, []) == frames && ToneLeft(frames, []) == []
    decreases |frames|
  {
    if frames != [] {
      NoTone(frames[..|frames| - 1]);
      assert frames == frames[..|frames| - 1] + [frames[|frames| - 1]];
    }
  }

  /** The tone is used up as the frames go by: each is mixed with the stretch that belongs to it. */
  lemma {:induction false} ToneStretch(frames: seq<bytes>, tone: bytes)
    ensures ToneLeft(frames, tone) == After(tone, |Flat(frames)|)
    ensures forall k :: 0 <= k < |frames| ==>
            TonedAll(frames, tone)[k] == Toned(frames[k], After(tone, |Flat(frames[..k])|))
    decreases |frames|
  {
    hide Toned, After, Flat;
    NothingFlat(tone);
    if frames != [] {
      var front, last := frames[..|frames| - 1], frames[|frames| - 1];
      ToneStretch(front, tone);
      FlatSnoc(front, last);
      assert frames == front + [last];
      AfterTwice(tone, |Flat(front)|, |last|);
      forall k | 0 <= k < |frames|
          ensures TonedAll(frames, tone)[k] == Toned(frames[k], After(tone, |Flat(frames[..k])|)) {
        if k < |front| {
          assert front[..k] == frames[..k] && front[k] == frames[k];
        } else {
          assert frames[..k] == front;
        }
      }
    }
  }

  lemma NothingFlat(tone: bytes)
    ensures Flat([]) == [] && After(tone, 0) == tone
  {
  }

  lemma AfterTwice(pcm: bytes, m: nat, n: nat)
    ensures After(After(pcm, m), n) == After(pcm, m + n)
  {
  }

  lemma TonedSamples(frame: bytes, tone: bytes)
    requires |frame| % 2 == 0 && tone != []
    ensures |Toned(frame, tone)| == |frame|
    ensures Samples(Toned(frame, tone)) == Clipped(Sums(Samples(frame), Samples(Padded(tone, |frame|))))
  {
    hide Clipped, Samples, Pcm, Padded;
    var mixed := Clipped(Sums(Samples(frame), Samples(Padded(tone, |frame|))));
    PcmRoundTrip(mixed);
  }

  lemma SumAt(a: seq<int>, b: seq<int>, i: nat)
    requires |a| == |b| && i < |a|
    ensures Nearest(a[i] + b[i], Clipped(Sums(a, b))[i])
    ensures -32768 <= a[i] <= 32767 && b[i] == 0 ==> Clipped(Sums(a, b))[i] == a[i]
  {
    hide Clip;
    ClipNearest(a[i] + b[i]);
  }

  /** What the user hears of a frame with a tone mixed in: sample by sample the sum of both, clipped, and the frame
      alone where the tone has ended. */
  lemma ToneMixed(frame: bytes, tone: bytes, i: nat)
    requires |frame| % 2 == 0 && i < |frame| / 2
    ensures |Toned(frame, tone)| == |frame|
    ensures var own, heard := Samples(frame)[i], Samples(Toned(frame, tone))[i];
            && (2 * i + 1 < |tone| ==> Nearest(own + Samples(tone)[i], heard))
            && (2 * i >= |tone| ==> heard == own)
  {
    hide Clipped, Sums, Samples, Pcm, Padded, Nearest;
    if tone != [] {
      TonedSamples(frame, tone);
      SumAt(Samples(frame), Samples(Padded(tone, |frame|)), i);
      PaddedSample(tone, |frame|, i);
    }
  }

  lemma PaddedSample(tone: bytes, n: nat, i: nat)
    requires i < n / 2
    ensures 2 * i + 1 < |tone| ==> Samples(Padded(tone, n))[i] == Samples(tone)[i]
    ensures 2 * i >= |tone| ==> Samples(Padded(tone, n))[i] == 0
  {
  }

  /** What the recorder was given, if there is one, and what is kept for it from the SIP side. */
  datatype Tape = Tape(given: Option<seq<(bytes, bytes)>>, far: bytes)

  /** `_record_tick`: 20 ms of both sides. */
  function Taped(tape: Tape, near: bytes, n: nat): Tape {
    if tape.given.None? then tape
    else Tape(Some(tape.given.value + [(Padded(tape.far, n), Padded(near, n))]), After(tape.far, n))
  }

  function TapedAll(tape: Tape, nears: seq<bytes>, n: nat): Tape
    decreases |nears|
  {
    if nears == [] then tape else Taped(TapedAll(tape, nears[..|nears| - 1], n), nears[|nears| - 1], n)
  }

  /** Over any number of pumps the recorder gets one pair each: the next 20 ms of the far side and what was played near,
      either of them filled up with silence; and without a recorder nothing is kept. */
  lemma {:induction false} TapeRuns(tape: Tape, nears: seq<bytes>, n: nat)
    ensures tape.given.None? ==> TapedAll(tape, nears, n) == tape
    ensures tape.given.Some? ==>
              var all := TapedAll(tape, nears, n);
              && all.given.Some? && all.far == After(tape.far, |nears| * n)
              && |all.given.value| == |tape.given.value| + |nears|
              && all.given.value[..|tape.given.value|] == tape.given.value
              && forall k :: 0 <= k < |nears| ==>
                   all.given.value[|tape.given.value| + k] == (Padded(After(tape.far, k * n), n), Padded(nears[k], n))
    decreases |nears|
  {
    hide Padded, After;
    NothingFlat(tape.far);
    if nears != [] {
      var front, last := nears[..|nears| - 1], nears[|nears| - 1];
      TapeRuns(tape, front, n);
      AfterTwice(tape.far, |front| * n, n);
      assert |front| * n + n == |nears| * n;
      if tape.given.Some? {
        var before, all := TapedAll(tape, front, n).given.value, TapedAll(tape, nears, n).given.value;
        var m := |tape.given.value|;
        assert all == before + [(Padded(After(tape.far, |front| * n), n), Padded(last, n))];
        forall k | 0 <= k < |nears| ensures all[m + k] == (Padded(After(tape.far, k * n), n), Padded(nears[k], n)) {
          if k < |front| {
            assert all[m + k] == before[m + k] && front[k] == nears[k];
          }
        }
      }
    }
  }

  function Near(play: Play): bytes {
    match play
    case Silence => []
    case Audio(chunk) => chunk
  }

  /** The resampler makes as many samples of one rate as fill the time of those of the other. */
  ghost predicate Stretches(resample: (bytes, nat, nat) -> bytes, given: nat, wanted: nat)
    requires given > 0
  {
    forall x :: |resample(x, given, wanted)| == |x| / 2 * wanted / given * 2
  }

  // ---- The object ----

  class CallBridge {
    const buffer: PcmBuffer
    const rtp: RtpSession
    const rate: nat
    const sipRate: nat
    const jitter: nat
    /** The SIP codec: 16-bit samples to a payload, and silence; the resampler: samples, their rate, the rate wanted. */
    const encode: bytes -> bytes
    const silence: nat -> bytes
    const resample: (bytes, nat, nat) -> bytes
    var carry: bytes
    var next: real
    var primed: bool
    var running: bool
    var tone: bool
    var ringback: bool
    var sidetone: bytes
    var recorder: Option<seq<(bytes, bytes)>>
    var recFar: bytes
    /** Frames handed to the Telegram call, and 10 ms frames of a tone among them. */
    var frames: seq<bytes>
    var toneFrames: nat

    /** frame10 and frame20, in bytes. */
    function Frame10(): nat {
      rate * 2 / 100
    }

    function Frame20(): nat {
      Frame10() * 2
    }

    function TapeOf(): Tape
      reads `recorder, `recFar
    {
      Tape(recorder, recFar)
    }

    ghost predicate Valid() {
      && rate >= 50
      && (sipRate == rate || (rate % 50 == 0 && Stretches(resample, rate, sipRate)))
    }

    constructor (buffer: PcmBuffer, rtp: RtpSession, rate: nat, sipRate: nat, jitterMs: nat, encode: bytes -> bytes,
                 silence: nat -> bytes, resample: (bytes, nat, nat) -> bytes, ringback: bool)
      requires rate >= 50
      requires sipRate == rate || (rate % 50 == 0 && Stretches(resample, rate, sipRate))
      ensures Valid() && this.buffer == buffer && this.rtp == rtp && !running && !primed && carry == [] && frames == []
      ensures sidetone == [] && recorder == None && recFar == []
      ensures jitter >= Frame20()
    {
      this.buffer, this.rtp, this.rate, this.sipRate := buffer, rtp, rate, sipRate;
      this.encode, this.silence, this.resample := encode, silence, resample;
      var frame20 := rate * 2 / 100 * 2;
      jitter := if rate * 2 * jitterMs / 1000 > frame20 then rate * 2 * jitterMs / 1000 else frame20;
      carry, next, primed, running, tone, frames, toneFrames := [], 0.0, false, false, false, [], 0;
      this.ringback, sidetone, recorder, recFar := ringback, [], None, [];
    }

    /** `side_tone` */
    method SideTone(pcm: bytes)
      modifies `sidetone
      ensures sidetone == old(sidetone) + pcm
    {
      sidetone := sidetone + pcm;
    }

    /** `start_recording` and `stop_recording` */
    method Record(on: bool)
      modifies `recorder, `recFar
      ensures TapeOf() == if on && old(recorder).Some? then old(TapeOf()) else Tape(if on then Some([]) else None, [])
    {
      if on && recorder.Some? {
        return;
      }
      recorder := if on then Some([]) else None;
      recFar := [];
    }

    /** `_record_tick` */
    method RecordTick(near: bytes)
      modifies `recorder, `recFar
      ensures TapeOf() == Taped(old(TapeOf()), near, Frame20())
    {
      if recorder.None? {
        return;
      }
      recorder := Some(recorder.value + [(Padded(recFar, Frame20()), Padded(near, Frame20()))]);
      recFar := After(recFar, Frame20());
    }

    /** `start` */
    method Start(now: real)
      modifies `running, `next
      ensures running && (if old(running) then next == old(next) else next == now + TICK)
    {
      if running {
        return;
      }
      running := true;
      next := now + TICK;
    }

    /** `send_pcm` and `send_silence` of the SIP call; `mute` while it is on hold or dials digits. */
    method SendToSip(payload: bytes, samples: nat, mute: bool)
      modifies rtp`sent, rtp`number, rtp`timestamp, rtp`markerPending
      ensures mute || !old(rtp.Ready()) ==> rtp.sent == old(rtp.sent) && Cursor() == old(Cursor())
      ensures !mute && old(rtp.Ready()) ==>
                && rtp.sent == old(rtp.sent) + [Encode(Packet(old(rtp.markerPending), rtp.payloadType, old(rtp.number),
                                                             old(rtp.timestamp), rtp.ssrc, payload))]
                && rtp.timestamp == Low32(old(rtp.timestamp) + samples) && rtp.number == Low16(old(rtp.number) + 1)
                && !rtp.markerPending
    {
      if mute {
        return;
      }
      rtp.Send(payload, samples, false);
    }

    /** Whether pumps go to SIP at all. */
    predicate Playing(media: bool)
      reads this
    {
      !tone && media
    }

    function Sound(): Voice {
      Voice(encode, silence, resample, rate, sipRate)
    }

    function Cursor(): Origin
      reads rtp
    {
      Origin(rtp.markerPending, rtp.payloadType, rtp.number, rtp.timestamp, rtp.ssrc)
    }

    /** What `_pump` takes from the buffer: nothing until it has filled up to the jitter margin, and again after it
        has run dry. */
    method NextChunk() returns (chunk: Option<bytes>)
      modifies `primed, buffer
      ensures var p := Pump(old(buffer.View()), old(primed), jitter, Frame20());
              && buffer.View() == p.fifo && primed == p.primed
              && p.play == if chunk.None? then Silence else Audio(chunk.value)
      ensures chunk.Some? ==> |chunk.value| == Frame20()
    {
      if !primed {
        if |buffer.buf| < jitter {
          return None;
        }
        primed := true;
      }
      chunk := buffer.Pull(Frame20(), false);
      if chunk.None? {
        primed := false;
      }
    }

    /** `_pump`; `media` says whether the SIP call is early or connected. */
    method PumpOnce(media: bool, mute: bool)
      requires Valid()
      modifies `primed, `toneFrames, `recorder, `recFar, buffer, rtp`sent, rtp`number, rtp`timestamp, rtp`markerPending
      ensures TapeOf() == if Playing(media) then
                            Taped(old(TapeOf()), Near(Pump(old(buffer.View()), old(primed), jitter, Frame20()).play),
                                  Frame20())
                          else old(TapeOf())
      ensures Playing(media) && old(recorder).Some? ==> recorder.Some? && |recorder.value| == |old(recorder).value| + 1
      ensures tone || !media ==> rtp.sent == old(rtp.sent) && buffer.View() == old(buffer.View())
      ensures !Playing(media) ==>
                && buffer.View() == old(buffer.View()) && primed == old(primed)
                && rtp.sent == old(rtp.sent) && Cursor() == old(Cursor())
                && toneFrames == old(toneFrames) + (if tone || ringback then 2 else 0)
      ensures Playing(media) ==>
                && toneFrames == old(toneFrames)
                && var p := Pump(old(buffer.View()), old(primed), jitter, Frame20());
                && buffer.View() == p.fifo && primed == p.primed
                && if mute || !rtp.Ready() then rtp.sent == old(rtp.sent) && Cursor() == old(Cursor())
                   else
                     && rtp.sent == old(rtp.sent) + [PacketFrom(old(Cursor()), Payload(Sound(), p.play))]
                     && Cursor() == Stepped(old(Cursor()), sipRate)
    {
      hide Encode, Low32, Low16, Padded, After, Pump;
      if tone {
        toneFrames := toneFrames + 2;
        return;
      }
      if !media && ringback {
        toneFrames := toneFrames + 2;
        return;
      }
      if !media {
        return;
      }
      var chunk := NextChunk();
      if chunk.None? {
        SendToSip(silence(sipRate / 50), sipRate / 50, mute);
        RecordTick([]);
        return;
      }
      RecordTick(chunk.value);
      var pcm := if sipRate != rate then resample(chunk.value, rate, sipRate) else chunk.value;
      SampleCount(chunk.value);
      SendToSip(encode(pcm), |pcm| / 2, mute);
    }

    lemma SampleCount(chunk: bytes)
      requires Valid() && |chunk| == Frame20()
      ensures |AtRate(resample, chunk, rate, sipRate)| / 2 == sipRate / 50
    {
      if sipRate != rate {
        ResampledLength(rate, sipRate);
        assert |chunk| / 2 == rate / 50;
      }
    }

    /** `_tick`: as many pumps as are due, and while the call may send, one packet each. */
    method Tick(now: real, media: bool, mute: bool)
      requires Valid()
      modifies `next, `primed, `toneFrames, `recorder, `recFar, buffer
      modifies rtp`sent, rtp`number, rtp`timestamp, rtp`markerPending
      ensures !running ==> next == old(next) && buffer.View() == old(buffer.View())
      ensures !running || tone || !media || mute || !rtp.Ready() ==> rtp.sent == old(rtp.sent)
      ensures running ==> next == old(next) + Due(old(next), now) as real * TICK
      ensures running && !tone && media ==>
                var s := PumpTimes(old(buffer.View()), old(primed), jitter, Frame20(), Due(old(next), now));
                && buffer.View() == s.fifo && primed == s.primed
                && rtp.sent == old(rtp.sent)
                               + if mute || !rtp.Ready() then [] else PacketsOf(Sound(), old(Cursor()), s.plays)
      ensures running && !tone && media && !mute && old(rtp.Ready()) ==>
                && |rtp.sent| == |old(rtp.sent)| + Due(old(next), now)
                && rtp.timestamp == StampAt(old(rtp.timestamp), Due(old(next), now), sipRate)
                && rtp.number == Low16(old(rtp.number) + Due(old(next), now))
      ensures running && !tone && media && old(recorder).Some? ==>
                recorder.Some? && |recorder.value| == |old(recorder).value| + Due(old(next), now)
    {
      hide Pump, Due, Near, Taped, TapeOf, Payload, PumpTimes, PacketsOf, PacketAt, PacketFrom, StampAt, OriginAt,
          Stepped;
      if !running {
        return;
      }
      ghost var n, o, plays := 0, Cursor(), Playing(media);
      ghost var sends, s := plays && !mute && rtp.Ready(), Spell([], buffer.View(), primed);
      OriginNext(o, 0, sipRate);
      NoPumps(buffer.View(), primed, jitter, Frame20(), Sound(), o);
      assert rtp.sent + [] == rtp.sent;
      while next <= now
        invariant Due(old(next), now) == n + Due(next, now) && next == old(next) + n as real * TICK
        invariant plays ==>
                    && |s.plays| == n && s == PumpTimes(old(buffer.View()), old(primed), jitter, Frame20(), n)
                    && buffer.View() == s.fifo && primed == s.primed
        invariant sends ==>
                    && rtp.sent == old(rtp.sent) + PacketsOf(Sound(), o, s.plays)
                    && Cursor() == OriginAt(o, n, sipRate)
        invariant !sends ==> rtp.sent == old(rtp.sent)
        invariant plays && old(recorder).Some? ==>
                recorder.Some? && |recorder.value| == |old(recorder).value| + n
        decreases ((now - next) / TICK).Floor + 1
      {
        DueStep(next, now);
        Closer(next, now);
        OriginNext(o, n, sipRate);
        next := next + TICK;
        ghost var p := Pump(s.fifo, s.primed, jitter, Frame20());
        OneMore(old(rtp.sent), Sound(), o, s.plays, p.play);
        NextPump(old(buffer.View()), old(primed), jitter, Frame20(), n);
        PumpOnce(media, mute);
        s := if plays then Spell(s.plays + [p.play], p.fifo, p.primed) else s;
        n := n + 1;
      }
      DueStep(next, now);
      OriginIs(o, n, sipRate);
    }

    lemma OriginIs(o: Origin, n: nat, sipRate: nat)
      ensures OriginAt(o, n, sipRate).number == Low16(o.number + n)
      ensures OriginAt(o, n, sipRate).timestamp == StampAt(o.timestamp, n, sipRate)
    {
      hide Low16, StampAt;
    }

    lemma OneMore(sent: seq<bytes>, v: Voice, o: Origin, plays: seq<Play>, play: Play)
      ensures sent + PacketsOf(v, o, plays + [play])
              == (sent + PacketsOf(v, o, plays)) + [PacketFrom(OriginAt(o, |plays|, v.sipRate), Payload(v, play))]
    {
      hide PacketFrom, PacketsOf, OriginAt, Payload;
      PacketsSnoc(v, o, plays, play);
      Regroup(sent, PacketsOf(v, o, plays), [PacketAt(v, o, |plays|, play)]);
    }

    lemma NoPumps(f: Fifo, primed: bool, jitter: nat, frame: nat, v: Voice, o: Origin)
      ensures PumpTimes(f, primed, jitter, frame, 0) == Spell([], f, primed) && PacketsOf(v, o, []) == []
    {
    }

    lemma NextPump(f: Fifo, primed: bool, jitter: nat, frame: nat, n: nat)
      ensures var s := PumpTimes(f, primed, jitter, frame, n); var p := Pump(s.fifo, s.primed, jitter, frame);
              PumpTimes(f, primed, jitter, frame, n + 1) == Spell(s.plays + [p.play], p.fifo, p.primed)
    {
      hide Pump;
    }

    /** `_from_sip`: everything goes on in frames of 10 ms, with the side tone mixed in, nothing is lost between
        them, and a recorder gets a copy. numpy cannot mix a frame of an odd number of bytes. `raw` are the frames
        before the mixing. */
    method FromSip(pcm: bytes) returns (ghost raw: seq<bytes>)
      requires rate >= 50 && (sidetone == [] || Frame10() % 2 == 0)
      modifies `carry, `frames, `ringback, `sidetone, `recFar
      ensures !ringback && |carry| < Frame10()
      ensures forall i :: 0 <= i < |raw| ==> |raw[i]| == Frame10()
      ensures Flat(raw) + carry == old(carry) + AtRate(resample, pcm, sipRate, rate)
      ensures frames == old(frames) + TonedAll(raw, old(sidetone)) && sidetone == ToneLeft(raw, old(sidetone))
      ensures recFar == old(recFar) + if recorder.Some? then AtRate(resample, pcm, sipRate, rate) else []
    {
      hide Toned, After, Padded;
      if ringback {
        ringback := false;
      }
      var audio := if sipRate != rate then resample(pcm, sipRate, rate) else pcm;
      if recorder.Some? {
        recFar := recFar + audio;
      }
      carry := carry + audio;
      var n := Frame10();
      raw := [];
      assert frames + [] == frames;
      assert TonedAll([], sidetone) == [] && ToneLeft([], sidetone) == sidetone;
      while |carry| >= n
        invariant !ringback && frames == old(frames) + TonedAll(raw, old(sidetone))
        invariant sidetone == ToneLeft(raw, old(sidetone))
        invariant forall i :: 0 <= i < |raw| ==> |raw[i]| == n
        invariant recFar == old(recFar) + if recorder.Some? then audio else []
        invariant Flat(raw) + carry == old(carry) + audio
        decreases |carry|
      {
        var frame := carry[..n];
        assert carry == frame + carry[n..];
        FlatSnoc(raw, frame);
        Regroup(Flat(raw), frame, carry[n..]);
        TonedSnoc(raw, frame, old(sidetone));
        Regroup(old(frames), TonedAll(raw, old(sidetone)), [Toned(frame, sidetone)]);
        var mixed := MixSideTone(frame);
        frames := frames + [mixed];
        raw := raw + [frame];
        carry := carry[n..];
      }
    }

    /** `_mix_sidetone` */
    method MixSideTone(frame: bytes) returns (mixed: bytes)
      modifies `sidetone
      ensures mixed == Toned(frame, old(sidetone)) && sidetone == After(old(sidetone), |frame|)
    {
      if sidetone == [] {
        return frame;
      }
      var tone := Padded(sidetone, |frame|);
      sidetone := After(sidetone, |frame|);
      mixed := Pcm(Clipped(Sums(Samples(frame), Samples(tone))));
    }
  }
}
