/** `RtpSession` (sipgram/sip/rtp.py): the counters and flags behind the wire format of module Rtp. */
module RtpSessions {
  import opened Options
  import opened Sequences
  import opened Bytes
  import opened Rtp

  datatype Address = Address(host: string, port: nat)

  datatype Delivered = Delivered(payload: bytes, marker: bool, timestamp: nat, number: nat)

  class RtpSession {
    const clockRate: nat
    const ssrc: u32
    var remote: Option<Address>
    var open: bool
    var symmetric: bool
    var payloadType: u7
    var dtmfPt: Option<u7>
    var number: u16
    var timestamp: u32
    var markerPending: bool
    var lastEvent: Option<(u32, Event)>
    /** Datagrams handed to the transport, digits and audio handed to the callbacks. */
    var sent: seq<bytes>
    var reported: string
    var heard: seq<Delivered>

    predicate Ready()
      reads this
    {
      remote.Some? && open
    }

    function Listening(): Receiver
      reads this
    {
      Receiver(dtmfPt, lastEvent, reported)
    }

    constructor (clockRate: nat, ssrc: u32, number: u16, timestamp: u32)
      ensures !Ready() && markerPending && Listening() == Receiver(None, None, "") && sent == [] && heard == []
      ensures this.clockRate == clockRate && this.ssrc == ssrc && this.number == number && this.timestamp == timestamp
    {
      this.clockRate, this.ssrc, this.number, this.timestamp := clockRate, ssrc, number, timestamp;
      remote, open, symmetric, payloadType, dtmfPt, lastEvent := None, false, true, 0, None, None;
      markerPending := true;
      sent, reported, heard := [], "", [];
    }

    /** `send`: one audio packet; nothing moves unless there is somewhere to send it. */
    method Send(payload: bytes, samples: nat, marker: bool)
      modifies `sent, `number, `timestamp, `markerPending
      ensures !Ready() ==> sent == old(sent) && number == old(number) && timestamp == old(timestamp)
                           && markerPending == old(markerPending)
      ensures Ready() ==>
        && sent == old(sent)
            + [Encode(Packet(marker || old(markerPending), payloadType, old(number), old(timestamp), ssrc, payload))]
        && number == Low16(old(number) + 1)
        && timestamp == Low32(old(timestamp) + samples)
        && !markerPending
    {
      hide Encode;
      if remote.None? || !open {
        return;
      }
      var marked := marker;
      if markerPending {
        marked := true;
        markerPending := false;
      }
      sent := sent + [Encode(Packet(marked, payloadType, number, timestamp, ssrc, payload))];
      number := Low16(number + 1);
      timestamp := Low32(timestamp + samples);
    }

    /** `advance`: the clock moves without a packet, and the next packet is marked. */
    method Advance(samples: nat)
      modifies `timestamp, `markerPending
      ensures markerPending && timestamp == Low32(old(timestamp) + samples)
    {
      timestamp := Low32(timestamp + samples);
      markerPending := true;
    }

    /** The key presses this session would send, as a value. */
    predicate Keypad(s: Sender, duration: nat)
      reads `dtmfPt
    {
      && dtmfPt == Some(s.pt)
      && s.ssrc == ssrc
      && s.clock == clockRate
      && s.step == clockRate * 20 / 1000
      && s.total == clockRate * duration / 1000
    }

    /** `_send_event`. */
    method SendEvent(event: Event, ts: u32, duration: nat, end: bool, marker: bool)
      modifies `sent, `number
      ensures !Ready() || dtmfPt.None? ==> sent == old(sent) && number == old(number)
      ensures Ready() && dtmfPt.Some? ==>
        && sent == old(sent)
            + [Encode(Packet(marker, dtmfPt.value, old(number), ts, ssrc, EventPayload(event, end, duration)))]
        && number == Low16(old(number) + 1)
    {
      hide Encode, EventPayload;
      if remote.None? || !open || dtmfPt.None? {
        return;
      }
      sent := sent + [Encode(Packet(marker, dtmfPt.value, number, ts, ssrc, EventPayload(event, end, duration)))];
      number := Low16(number + 1);
    }

    /** The progress packets of one key: the `while elapsed < total` loop. */
    method HoldKey(event: Event, duration: nat, ghost s: Sender)
      requires Ready() && Keypad(s, duration)
      modifies `sent, `number
      ensures Sent(KeyPress(s, event, old(number), timestamp), Held(s),
                   Progressed(old(sent), old(number)), Progressed(sent, number))
    {
      hide Sent, Progress, KeyPress, KeyPacket, Low16, Encode, EventPayload;
      ghost var packets := KeyPress(s, event, number, timestamp);
      ghost var begin := Progressed(sent, number);
      var step := clockRate * 20 / 1000;
      var total := clockRate * duration / 1000;
      var elapsed := 0;
      var first := true;
      ghost var k := 0;
      NothingSent(packets, begin);
      assert Progress(0, step, total)[0..] == Progress(0, step, total);
      while elapsed < total
        invariant 0 <= elapsed && first == (k == 0)
        invariant k <= Held(s) && Progress(0, step, total)[k..] == Progress(elapsed, step, total)
        invariant Sent(packets, k, begin, Progressed(sent, number))
        decreases total - elapsed
      {
        ProgressMoves(k, elapsed, step, total);
        elapsed := if elapsed + step < total then elapsed + step else total;
        NextSent(s, event, timestamp, k, begin, Progressed(sent, number));
        PacketFields(s, event, begin.number, timestamp, k);
        SendEvent(event, timestamp, elapsed, false, first);
        first := false;
        k := k + 1;
      }
      ProgressEnds(elapsed, step, total);
    }

    /** One key press of `_dtmf_worker`. */
    method PressKey(event: Event, duration: nat, ghost s: Sender)
      requires Ready() && Keypad(s, duration)
      modifies `sent, `number, `timestamp, `markerPending
      ensures markerPending && timestamp == Low32(old(timestamp) + s.total)
      ensures var packets := KeyPress(s, event, old(number), old(timestamp));
              Sent(packets, Size(s), Progressed(old(sent), old(number)), Progressed(sent, number))
    {
      hide Sent, Held, KeyPress, KeyPacket, Low16, Low32, Encode, EventPayload;
      ghost var packets := KeyPress(s, event, number, timestamp);
      ghost var begin := Progressed(sent, number);
      var total := clockRate * duration / 1000;
      assert dtmfPt == Some(s.pt) && s.ssrc == ssrc && s.total == total;
      HoldKey(event, duration, s);
      for i := 0 to 3
        invariant timestamp == old(timestamp)
        invariant Sent(packets, Held(s) + i, begin, Progressed(sent, number))
      {
        NextSent(s, event, timestamp, Held(s) + i, begin, Progressed(sent, number));
        PacketFields(s, event, begin.number, timestamp, Held(s) + i);
        SendEvent(event, timestamp, total, true, false);
      }
      timestamp := Low32(timestamp + total);
      markerPending := true;
    }

    /** `_dtmf_worker`: every valid digit becomes a key press, everything else is skipped. */
    method SendDigits(digits: string, duration: nat, ghost s: Sender)
      requires Ready() && Keypad(s, duration)
      modifies `sent, `number, `timestamp, `markerPending
      ensures KeysSent(s, Events(digits), Progressed(old(sent), old(number)), old(timestamp),
                      Progressed(sent, number), timestamp)
    {
      hide Keypad, Size, KeysSent, Sent, KeyPress, EventOf, Events;
      ghost var pressed := [];
      ghost var begin, start := Progressed(sent, number), timestamp;
      assert digits[0..] == digits;
      NoEvents();
      PressedNothing(s, begin, start);
      for i := 0 to |digits|
        invariant pressed + Events(digits[i..]) == Events(digits)
        invariant KeysSent(s, pressed, begin, start, Progressed(sent, number), timestamp)
      {
        TakeDigit(digits, i);
        match EventOf(digits[i]) {
          case None =>
          case Some(event) =>
            ghost var held, at := Progressed(sent, number), timestamp;
            PressKey(event, duration, s);
            NextPressed(s, pressed, event, begin, start, held, at, Progressed(sent, number));
            Regroup(pressed, [event], Events(digits[i + 1..]));
            pressed := pressed + [event];
        }
      }
      assert digits[|digits|..] == "" && pressed + [] == pressed;
    }

    /** `datagram_received` and `_handle_dtmf`. */
    method DatagramReceived(data: bytes, source: Address)
      modifies `remote, `lastEvent, `reported, `heard
      ensures Listening() == Receive(old(Listening()), data)
      ensures remote == if Decode(data).Some? && symmetric then Some(source) else old(remote)
      ensures heard == old(heard) + Audio(Decode(data), dtmfPt, payloadType)
    {
      match Decode(data) {
        case None =>
        case Some(p) =>
          if symmetric && Some(source) != remote {
            remote := Some(source);
          }
          if dtmfPt == Some(p.pt) {
            if |p.payload| >= 4 && p.payload[1] >= 128 && p.payload[0] as nat < |DTMF_CHARS| {
              var key := (p.timestamp, p.payload[0] as nat);
              if lastEvent != Some(key) {
                lastEvent := Some(key);
                reported := reported + [DTMF_CHARS[p.payload[0]]];
              }
            }
          } else if p.pt == payloadType {
            heard := heard + [Delivered(p.payload, p.marker, p.timestamp, p.number)];
          }
      }
    }
  }

  /** Audio reaches the callback exactly for the negotiated type, and never from the event stream. */
  function Audio(decoded: Option<Packet>, dtmfPt: Option<u7>, payloadType: nat): seq<Delivered> {
    match decoded
    case None => []
    case Some(p) =>
      if dtmfPt != Some(p.pt) && p.pt == payloadType then [Delivered(p.payload, p.marker, p.timestamp, p.number)]
          else []
  }

  /** The datagrams sent so far and the next sequence number. */
  datatype Progressed = Progressed(sent: seq<bytes>, number: u16)

  /** The first k of `packets` lead from one point to the other. */
  ghost predicate Sent(packets: seq<Packet>, k: nat, begin: Progressed, now: Progressed) {
    && k <= |packets|
    && now.sent == begin.sent + EncodeAll(packets[..k])
    && now.number == Low16(begin.number + k)
  }

  /** The k-th packet of a key press goes out with the current sequence number. */
  lemma NextSent(s: Sender, event: Event, ts: u32, k: nat, begin: Progressed, now: Progressed)
    requires k < Size(s) && Sent(KeyPress(s, event, begin.number, ts), k, begin, now)
    ensures Sent(KeyPress(s, event, begin.number, ts), k + 1, begin,
                 Progressed(now.sent + [Encode(KeyPacket(s, event, begin.number, ts, k))], Low16(now.number + 1)))
    ensures KeyPacket(s, event, begin.number, ts, k).number == now.number
  {
    hide Size, Held, KeyPress, KeyPacket, EncodeAll, Encode, Low16;
    var packets := KeyPress(s, event, begin.number, ts);
    OneMorePacket(s, event, begin.number, ts, k);
    PacketNumber(s, event, begin.number, ts, k);
    NextNumber(begin.number + k);
    Regroup(begin.sent, EncodeAll(packets[..k]), [Encode(packets[k])]);
  }

  lemma PacketNumber(s: Sender, event: Event, number: nat, ts: nat, k: nat)
    ensures KeyPacket(s, event, number, ts, k).number == Low16(number + k)
  {
    hide Progress, EventPayload, Held;
  }

  lemma NothingSent(packets: seq<Packet>, begin: Progressed)
    ensures Sent(packets, 0, begin, begin)
  {
    assert packets[..0] == [];
  }

  /** The progress and end packets, field by field. */
  lemma PacketFields(s: Sender, event: Event, number: nat, ts: u32, k: nat)
    ensures var p := KeyPacket(s, event, number, ts, k);
            && p.pt == s.pt && p.ssrc == s.ssrc && p.timestamp == ts
            && (k >= Held(s) ==> p.payload == EventPayload(event, true, s.total) && !p.marker)
            && (k < Held(s) ==>
                p.payload == EventPayload(event, false, Progress(0, s.step, s.total)[k]) && p.marker == (k == 0))
  {
    hide Progress, EventPayload;
  }

  lemma NoEvents()
    ensures Events("") == []
  {
  }

  lemma TakeDigit(digits: string, i: nat)
    requires i < |digits|
    ensures Events(digits[i..])
            == (match EventOf(digits[i]) case Some(e) => [e] case None => []) + Events(digits[i + 1..])
  {
    assert digits[i..][1..] == digits[i + 1..];
  }

  /** What `_dtmf_worker` has done once the keys of `events` are pressed. */
  ghost predicate KeysSent(s: Sender, events: seq<Event>, begin: Progressed, start: u32, now: Progressed, ts: u32) {
    && now.sent == begin.sent + EncodeAll(Flatten(KeyPresses(s, events, begin.number, start)))
    && now.number == Low16(begin.number + |events| * (Size(s)))
    && ts == Low32(start + |events| * s.total)
  }

  lemma PressedNothing(s: Sender, begin: Progressed, start: u32)
    ensures KeysSent(s, [], begin, start, begin, start)
  {
    hide Size;
  }

  lemma NextPressed(s: Sender, events: seq<Event>, event: Event, begin: Progressed, start: u32, held: Progressed,
                    ts: u32, now: Progressed)
    requires KeysSent(s, events, begin, start, held, ts)
    requires var packets := KeyPress(s, event, held.number, ts); Sent(packets, Size(s), held, now)
    ensures KeysSent(s, events + [event], begin, start, now, Low32(ts + s.total))
  {
    hide Size, KeyPress, KeyPresses, Flatten, EncodeAll, Low16, Low32;
    var n, size := |events|, Size(s);
    var packets := KeyPress(s, event, held.number, ts);
    assert packets[..|packets|] == packets;
    OneMorePress(s, events, event, begin.number, start);
    SameKey(s, event, begin.number + n * size, start + n * s.total);
    Regroup(begin.sent, EncodeAll(Flatten(KeyPresses(s, events, begin.number, start))), EncodeAll(packets));
    Moves(begin.number, start, n, size, s.total);
  }

  lemma OneMorePacket(s: Sender, event: Event, number: nat, ts: nat, k: nat)
    requires k < Size(s)
    ensures var packets := KeyPress(s, event, number, ts);
            && packets[k] == KeyPacket(s, event, number, ts, k)
            && EncodeAll(packets[..k + 1]) == EncodeAll(packets[..k]) + [Encode(packets[k])]
  {
    hide Size, KeyPacket, Encode;
    var packets := KeyPress(s, event, number, ts);
    assert packets[..k + 1] == packets[..k] + [packets[k]];
  }

  lemma ProgressMoves(k: nat, elapsed: nat, step: Positive, total: nat)
    requires k <= |Progress(0, step, total)| && Progress(0, step, total)[k..] == Progress(elapsed, step, total)
    requires elapsed < total
    ensures var now := if elapsed + step < total then elapsed + step else total;
            && k < |Progress(0, step, total)| && Progress(0, step, total)[k] == now
            && Progress(0, step, total)[k + 1..] == Progress(now, step, total)
  {
    var all, rest := Progress(0, step, total), Progress(elapsed, step, total);
    assert all[k] == rest[0];
    assert all[k + 1..] == rest[1..];
  }

  lemma ProgressEnds(elapsed: nat, step: Positive, total: nat)
    requires elapsed >= total
    ensures Progress(elapsed, step, total) == []
  {
  }

  lemma {:induction false} KeyPressesSplit(s: Sender, events: seq<Event>, event: Event, number: nat, ts: nat)
    ensures var n := |events|; var size := Size(s);
            KeyPresses(s, events + [event], number, ts)
            == KeyPresses(s, events, number, ts) + [KeyPress(s, event, number + n * size, ts + n * s.total)]
    decreases |events|
  {
    hide KeyPress, Size;
    var n, size := |events|, Size(s);
    if events == [] {
      assert ([] + [event])[1..] == [];
    } else {
      assert (events + [event])[1..] == events[1..] + [event];
      KeyPressesSplit(s, events[1..], event, number + size, ts + s.total);
      assert number + size + (n - 1) * size == number + n * size;
      assert ts + s.total + (n - 1) * s.total == ts + n * s.total;
    }
  }

  lemma {:induction false} FlattenSnoc<T>(groups: seq<seq<T>>, last: seq<T>)
    ensures Flatten(groups + [last]) == Flatten(groups) + last
    decreases |groups|
  {
    if groups == [] {
      assert Flatten([last]) == last + Flatten([]);
    } else {
      assert (groups + [last])[1..] == groups[1..] + [last];
      FlattenSnoc(groups[1..], last);
    }
  }

  lemma EncodeConcat(a: seq<Packet>, b: seq<Packet>)
    ensures EncodeAll(a + b) == EncodeAll(a) + EncodeAll(b)
  {
    hide Encode;
  }

  lemma OneMorePress(s: Sender, events: seq<Event>, event: Event, number: nat, ts: nat)
    ensures var n := |events|; var size := Size(s);
            EncodeAll(Flatten(KeyPresses(s, events + [event], number, ts)))
            == EncodeAll(Flatten(KeyPresses(s, events, number, ts)))
               + EncodeAll(KeyPress(s, event, number + n * size, ts + n * s.total))
  {
    hide KeyPress, Size, EncodeAll, Flatten;
    var n, size := |events|, Size(s);
    var last := KeyPress(s, event, number + n * size, ts + n * s.total);
    KeyPressesSplit(s, events, event, number, ts);
    FlattenSnoc(KeyPresses(s, events, number, ts), last);
    EncodeConcat(Flatten(KeyPresses(s, events, number, ts)), last);
  }

  /** A key press depends on the counters only modulo their width. */
  lemma SameKey(s: Sender, event: Event, number: nat, ts: nat)
    ensures KeyPress(s, event, Low16(number), Low32(ts)) == KeyPress(s, event, number, ts)
  {
    hide Size, KeyPacket, KeyPress;
    var a, b := KeyPress(s, event, Low16(number), Low32(ts)), KeyPress(s, event, number, ts);
    forall k | 0 <= k < |a| ensures a[k] == b[k] {
      OneMorePacket(s, event, Low16(number), Low32(ts), k);
      OneMorePacket(s, event, number, ts, k);
      SumModulo(number, k);
      SamePacket(s, event, number, ts, k);
    }
  }

  lemma SamePacket(s: Sender, event: Event, number: nat, ts: nat, k: nat)
    requires Low16(Low16(number) + k) == Low16(number + k)
    ensures KeyPacket(s, event, Low16(number), Low32(ts), k) == KeyPacket(s, event, number, ts, k)
  {
    hide Progress, EventPayload;
  }

  lemma SumModulo(a: nat, b: nat)
    ensures Low16(Low16(a) + b) == Low16(a + b)
  {
  }

  lemma NextNumber(n: nat)
    ensures Low16(Low16(n) + 1) == Low16(n + 1)
  {
  }

  lemma TimeModulo(a: nat, b: nat)
    ensures Low32(Low32(a) + b) == Low32(a + b)
  {
  }

  lemma Moves(number: nat, ts: nat, n: nat, size: nat, total: nat)
    ensures Low16(Low16(number + n * size) + size) == Low16(number + (n + 1) * size)
    ensures Low32(Low32(ts + n * total) + total) == Low32(ts + (n + 1) * total)
  {
    hide Low16, Low32;
    SumModulo(number + n * size, size);
    TimeModulo(ts + n * total, total);
    assert (n + 1) * size == n * size + size && (n + 1) * total == n * total + total;
  }
}
