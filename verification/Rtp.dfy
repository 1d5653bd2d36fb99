/** RTP with RFC 4733 DTMF events (sipgram/sip/rtp.py): the sender, the receiver, and a lossy
    channel between them. */
module Rtp {
  import opened Options
  import opened Bytes
  import opened Text

  const WRAP32: nat := 0x1_0000_0000

  // ---- Packets on the wire ----

  datatype Packet = Packet(marker: bool, pt: u7, number: u16, timestamp: u32, ssrc: u32, payload: bytes)

  /** struct.pack("!BBHII", ...) and the payload. */
  function Encode(p: Packet): bytes
  {
    [0x80, ((if p.marker then 128 else 0) + p.pt) as byte]
    + PackBig(p.number, 2) + PackBig(p.timestamp, 4) + PackBig(p.ssrc, 4) + p.payload
  }

  /** data[lo:hi] of Python, where a negative bound counts from the end. */
  function PySlice(data: bytes, lo: nat, hi: int): bytes {
    var end := if hi < 0 then hi + |data| else hi;
    if lo < end <= |data| then data[lo..end] else []
  }

  /** What `datagram_received` makes of a datagram; None when it is dropped. */
  function Decode(data: bytes): Option<Packet> {
    if |data| < 12 || data[0] / 64 != 2 then None
    else
      var fixed := 12 + (data[0] % 16) as nat * 4;
      var extended := data[0] / 16 % 2 == 1;
      if extended && |data| < fixed + 4 then None
      else
        var offset := if extended then fixed + 4 + UnpackBig(data[fixed + 2..fixed + 4]) * 4 else fixed;
        var end := if data[0] / 32 % 2 == 1 && |data| > offset then |data| - data[|data| - 1] as int else |data|;
        Some(Packet(data[1] >= 128, (data[1] % 128) as nat, UnpackBig(data[2..4]), UnpackBig(data[4..8]),
                    UnpackBig(data[8..12]), PySlice(data, offset, end)))
  }

  lemma DecodeEncode(p: Packet)
    ensures Decode(Encode(p)) == Some(p)
  {
    hide PackBig, UnpackBig, Pow256;
    Powers();
    BigRoundTrip(p.number, 2);
    BigRoundTrip(p.timestamp, 4);
    BigRoundTrip(p.ssrc, 4);
    var head := [0x80, ((if p.marker then 128 else 0) + p.pt) as byte];
    var data := Encode(p);
    var a, b, c := PackBig(p.number, 2), PackBig(p.timestamp, 4), PackBig(p.ssrc, 4);
    FiveParts(head, a, b, c, p.payload);
    assert data == head + a + b + c + p.payload;
    assert data[0] == head[0] && data[1] == head[1];
  }

  lemma FiveParts(h: bytes, a: bytes, b: bytes, c: bytes, d: bytes)
    requires |h| == 2 && |a| == 2 && |b| == 4 && |c| == 4
    ensures var all := h + a + b + c + d;
            all[2..4] == a && all[4..8] == b && all[8..12] == c && all[12..] == d && all[12..|all|] == d
  {
  }

  // ---- Telephone events ----

  const DTMF_CHARS := "0123456789*#ABCD"

  type Event = n: nat | n < 16

  /** The event code of a digit; None for anything that is not sent. */
  function EventOf(c: char): (r: Option<Event>)
    ensures r.Some? ==> DTMF_CHARS[r.value] == UpperChar(c)
    ensures r.None? ==> UpperChar(c) !in DTMF_CHARS
  {
    var u := UpperChar(c);
    if '0' <= u <= '9' then
      assert forall i :: 0 <= i < 10 ==> DTMF_CHARS[i] == ('0' as int + i) as char;
      Some(u as nat - '0' as nat)
    else if u == '*' then Some(10)
    else if u == '#' then Some(11)
    else if 'A' <= u <= 'D' then
      assert forall i :: 12 <= i < 16 ==> DTMF_CHARS[i] == ('A' as int + i - 12) as char;
      Some(12 + (u as nat - 'A' as nat))
    else None
  }

  /** The events of a digit string, in order. */
  function Events(digits: string): (events: seq<Event>)
  {
    if digits == "" then []
    else (match EventOf(digits[0]) case Some(e) => [e] case None => []) + Events(digits[1..])
  }

  /** The characters a receiver should report: the valid digits in upper case. */
  function ValidDigits(digits: string): string {
    if digits == "" then ""
    else (if UpperChar(digits[0]) in DTMF_CHARS then [UpperChar(digits[0])] else "") + ValidDigits(digits[1..])
  }

  function Chars(events: seq<Event>): string
  {
    if events == [] then "" else [DTMF_CHARS[events[0]]] + Chars(events[1..])
  }

  lemma {:induction false} EventsSpellDigits(digits: string)
    ensures Chars(Events(digits)) == ValidDigits(digits)
    decreases |digits|
  {
    if digits != "" {
      EventsSpellDigits(digits[1..]);
      match EventOf(digits[0]) {
        case Some(e) =>
          assert Events(digits)[1..] == Events(digits[1..]);
          assert DTMF_CHARS[e] in DTMF_CHARS;
        case None =>
          assert Events(digits) == Events(digits[1..]);
      }
    }
  }

  function EventPayload(event: Event, end: bool, duration: nat): (payload: bytes)
    ensures |payload| == 4
  {
    [event as byte, (if end then 0x8A else 0x0A) as byte] + PackBig(if duration < 0xFFFF then duration else 0xFFFF, 2)
  }

  // ---- The receiver ----

  datatype Receiver = Receiver(dtmfPt: Option<u7>, lastEvent: Option<(u32, Event)>, reported: string)

  /** `_handle_dtmf`: an end packet fires once per (timestamp, event). */
  function HandleDtmf(r: Receiver, payload: bytes, ts: u32): Receiver {
    if |payload| < 4 || payload[1] < 128 || payload[0] as nat >= |DTMF_CHARS| then r
    else
      var key := (ts, payload[0] as nat);
      if r.lastEvent == Some(key) then r
      else r.(lastEvent := Some(key), reported := r.reported + [DTMF_CHARS[payload[0]]])
  }

  function Receive(r: Receiver, data: bytes): Receiver {
    match Decode(data)
    case None => r
    case Some(p) => if r.dtmfPt == Some(p.pt) then HandleDtmf(r, p.payload, p.timestamp) else r
  }

  function ReceiveAll(r: Receiver, datagrams: seq<bytes>): Receiver
    decreases |datagrams|
  {
    if datagrams == [] then r else ReceiveAll(Receive(r, datagrams[0]), datagrams[1..])
  }

  // ---- The sender ----

  /** The durations reported while the key is held: step, 2 step, ... and at last the total. */
  function Progress(elapsed: nat, step: nat, total: nat): seq<nat>
    requires step > 0
    decreases if elapsed < total then total - elapsed else 0
  {
    if elapsed >= total then []
    else var now := if elapsed + step < total then elapsed + step else total; [now] + Progress(now, step, total)
  }

  type Positive = n: int | n > 0 witness 1

  datatype Sender = Sender(pt: u7, ssrc: u32, clock: nat, step: Positive, total: nat)

  function EventPacket(s: Sender, event: Event, end: bool, duration: nat, marker: bool, number: nat,
                       ts: nat): (p: Packet)
  {
    Packet(marker, s.pt, Low16(number), Low32(ts), s.ssrc, EventPayload(event, end, duration))
  }

  /** How many progress packets, and how many packets in all, one key press takes. */
  function Held(s: Sender): nat {
    |Progress(0, s.step, s.total)|
  }

  function Size(s: Sender): nat {
    Held(s) + 3
  }

  /** The k-th packet of a key press: progress reports, the first one marked, and then end packets. */
  function KeyPacket(s: Sender, event: Event, number: nat, ts: nat, k: nat): Packet {
    if k < Held(s) then EventPacket(s, event, false, Progress(0, s.step, s.total)[k], k == 0, number + k, ts)
    else EventPacket(s, event, true, s.total, false, number + k, ts)
  }

  /** One key press: all progress packets and three end packets. */
  function KeyPress(s: Sender, event: Event, number: nat, ts: nat): (packets: seq<Packet>)
    ensures |packets| == Size(s)
  {
    seq(Size(s), k requires k >= 0 => KeyPacket(s, event, number, ts, k))
  }

  /** All key presses of a digit string, one group of packets per event. */
  function KeyPresses(s: Sender, events: seq<Event>, number: nat, ts: nat): (groups: seq<seq<Packet>>)
    ensures |groups| == |events|
    decreases |events|
  {
    if events == [] then []
    else
      [KeyPress(s, events[0], number, ts)]
      + KeyPresses(s, events[1..], number + Size(s), ts + s.total)
  }

  function Flatten<T>(groups: seq<seq<T>>): seq<T> {
    if groups == [] then [] else groups[0] + Flatten(groups[1..])
  }

  function EncodeAll(packets: seq<Packet>): (r: seq<bytes>)
    ensures |r| == |packets|
  {
    seq(|packets|, i requires 0 <= i < |packets| => Encode(packets[i]))
  }

  // ---- The channel ----

  function Repeat<T>(x: T, n: nat): seq<T> {
    seq(n, _ => x)
  }

  /** Each packet arrives as many times as `copies` says, in order; zero is a loss. */
  function Deliver(packets: seq<Packet>, copies: seq<nat>): seq<Packet>
    decreases |packets|
  {
    if packets == [] || copies == [] then [] else Repeat(packets[0], copies[0]) + Deliver(packets[1..], copies[1..])
  }

  function DeliverGroups(groups: seq<seq<Packet>>, copies: seq<seq<nat>>): seq<Packet>
    decreases |groups|
  {
    if groups == [] || copies == [] then []
    else Deliver(groups[0], copies[0]) + DeliverGroups(groups[1..], copies[1..])
  }

  /** One of the three end packets of a key press gets through. */
  predicate EndArrives(copies: seq<nat>) {
    |copies| >= 3 && (copies[|copies| - 1] > 0 || copies[|copies| - 2] > 0 || copies[|copies| - 3] > 0)
  }

  /** A channel for one digit string: per event, how often each packet of its key press arrives. */
  predicate Channel(s: Sender, events: seq<Event>, copies: seq<seq<nat>>)
    {
    && |copies| == |events|
    && forall i :: 0 <= i < |events| ==> |copies[i]| == Size(s) && EndArrives(copies[i])
  }

  // ---- What one key press does to the receiver ----

  /** The receiver on decoded packets. */
  function Hear(r: Receiver, p: Packet): Receiver {
    if r.dtmfPt == Some(p.pt) then HandleDtmf(r, p.payload, p.timestamp) else r
  }

  function HearAll(r: Receiver, packets: seq<Packet>): Receiver
    decreases |packets|
  {
    if packets == [] then r else HearAll(Hear(r, packets[0]), packets[1..])
  }

  lemma {:induction false} ReceiveIsHear(r: Receiver, packets: seq<Packet>)
    ensures ReceiveAll(r, EncodeAll(packets)) == HearAll(r, packets)
    decreases |packets|
  {
    hide Encode, Decode, HandleDtmf;
    if packets != [] {
      DecodeEncode(packets[0]);
      assert EncodeAll(packets)[0] == Encode(packets[0]) && EncodeAll(packets)[1..] == EncodeAll(packets[1..]);
      ReceiveIsHear(Hear(r, packets[0]), packets[1..]);
    }
  }

  lemma {:induction false} HearConcat(r: Receiver, a: seq<Packet>, b: seq<Packet>)
    ensures HearAll(r, a + b) == HearAll(HearAll(r, a), b)
    decreases |a|
  {
    hide Hear;
    if a == [] {
      assert a + b == b;
    } else {
      assert (a + b)[1..] == a[1..] + b;
      HearConcat(Hear(r, a[0]), a[1..], b);
    }
  }

  /** The receiver after the key (ts, event) has been heard. */
  function Pressed(r: Receiver, ts: u32, event: Event): Receiver
  {
    if r.lastEvent == Some((ts, event)) then r
    else r.(lastEvent := Some((ts, event)), reported := r.reported + [DTMF_CHARS[event]])
  }

  lemma HearEvent(r: Receiver, s: Sender, event: Event, end: bool, duration: nat, marker: bool, number: nat, ts: nat)
    requires r.dtmfPt == Some(s.pt)
    ensures Hear(r, EventPacket(s, event, end, duration, marker, number, ts))
            == if end then Pressed(r, Low32(ts), event) else r
  {
    hide PackBig;
  }

  lemma {:induction false} HearRepeats(r: Receiver, p: Packet, n: nat)
    requires Hear(Hear(r, p), p) == Hear(r, p)
    ensures HearAll(r, Repeat(p, n)) == if n == 0 then r else Hear(r, p)
    decreases n
  {
    hide Hear;
    if n > 0 {
      assert Repeat(p, n)[0] == p && Repeat(p, n)[1..] == Repeat(p, n - 1);
      HearRepeats(Hear(r, p), p, n - 1);
    }
  }

  /** A suffix of one key press: nothing happens until an end packet arrives, and then only once. */
  lemma {:induction false} HearKeyPress(r: Receiver, s: Sender, event: Event, number: nat, ts: nat, from: nat,
                                        copies: seq<nat>)
    requires r.dtmfPt == Some(s.pt)
    requires from <= |KeyPress(s, event, number, ts)| && |copies| == |KeyPress(s, event, number, ts)| - from
    ensures var heard := HearAll(r, Deliver(KeyPress(s, event, number, ts)[from..], copies));
            var ends := Held(s);
            var arrived := exists k :: 0 <= k < |copies| && from + k >= ends && copies[k] > 0;
            heard == if arrived then Pressed(r, Low32(ts), event) else r
    decreases |copies|
  {
    hide Hear, Pressed, KeyPress, Size, Held;
    var group := KeyPress(s, event, number, ts);
    var ends := Held(s);
    if copies != [] {
      var p := group[from];
      HearKeyPacket(r, s, event, number, ts, from);
      var next := if from >= ends && copies[0] > 0 then Pressed(r, Low32(ts), event) else r;
      HearKeyPacket(Hear(r, p), s, event, number, ts, from);
      PressedTwice(r, Low32(ts), event);
      HearRepeats(r, p, copies[0]);
      HearConcat(r, Repeat(p, copies[0]), Deliver(group[from + 1..], copies[1..]));
      assert group[from..][0] == p && group[from..][1..] == group[from + 1..];
      HearKeyPress(next, s, event, number, ts, from + 1, copies[1..]);
      Arrival(from, ends, copies);
    }
  }

  lemma Arrival(from: nat, ends: nat, copies: seq<nat>)
    requires copies != []
    ensures (exists k :: 0 <= k < |copies| && from + k >= ends && copies[k] > 0)
            <==> (from >= ends && copies[0] > 0)
                 || (exists k :: 0 <= k < |copies[1..]| && from + 1 + k >= ends && copies[1..][k] > 0)
  {
    if k :| 0 <= k < |copies| && from + k >= ends && copies[k] > 0 {
      if k > 0 {
        assert copies[1..][k - 1] > 0;
      }
    }
    if k :| 0 <= k < |copies[1..]| && from + 1 + k >= ends && copies[1..][k] > 0 {
      assert copies[k + 1] > 0;
    }
  }

  lemma HearKeyPacket(r: Receiver, s: Sender, event: Event, number: nat, ts: nat, k: nat)
    requires r.dtmfPt == Some(s.pt) && k < |KeyPress(s, event, number, ts)|
    ensures Hear(r, KeyPress(s, event, number, ts)[k])
            == if k >= Held(s) then Pressed(r, Low32(ts), event) else r
    ensures Hear(r, KeyPress(s, event, number, ts)[k]).dtmfPt == r.dtmfPt
  {
    hide Hear, EventPacket, Progress;
    if k < Held(s) {
      HearEvent(r, s, event, false, Progress(0, s.step, s.total)[k], k == 0, number + k, ts);
    } else {
      HearEvent(r, s, event, true, s.total, false, number + k, ts);
    }
  }

  lemma PressedTwice(r: Receiver, ts: u32, event: Event)
    ensures Pressed(Pressed(r, ts, event), ts, event) == Pressed(r, ts, event)
    ensures Pressed(r, ts, event).dtmfPt == r.dtmfPt
  {
  }

  // ---- A whole digit string ----

  /** The receiver after the keys of `events`, their timestamps `total` apart. */
  function PressAll(r: Receiver, events: seq<Event>, ts: nat, total: nat): Receiver
    decreases |events|
  {
    if events == [] then r else PressAll(Pressed(r, Low32(ts), events[0]), events[1..], ts + total, total)
  }

  /** Any order-preserving channel that lets one end packet of each press through is as good as none. */
  lemma {:induction false} ChannelIsTransparent(r: Receiver, s: Sender, events: seq<Event>, number: nat, ts: nat,
                                                copies: seq<seq<nat>>)
    requires r.dtmfPt == Some(s.pt) && Channel(s, events, copies)
    ensures HearAll(r, DeliverGroups(KeyPresses(s, events, number, ts), copies)) == PressAll(r, events, ts, s.total)
    decreases |events|
  {
    hide Pressed, KeyPress, KeyPresses, Size, Channel, EndArrives, PressAll, HearAll, Deliver, DeliverGroups;
    if events == [] {
      NoPresses(r, s, number, ts, copies);
    } else {
      var first := KeyPress(s, events[0], number, ts);
      var others := KeyPresses(s, events[1..], number + Size(s), ts + s.total);
      var next := Pressed(r, Low32(ts), events[0]);
      ChannelTail(s, events, copies);
      OneKeyHeard(r, s, events[0], number, ts, copies[0]);
      Unfolding(r, s, events, number, ts);
      ChannelIsTransparent(next, s, events[1..], number + Size(s), ts + s.total, copies[1..]);
      DeliverCons(first, others, copies);
      HearConcat(r, Deliver(first, copies[0]), DeliverGroups(others, copies[1..]));
    }
  }

  lemma NoPresses(r: Receiver, s: Sender, number: nat, ts: nat, copies: seq<seq<nat>>)
    ensures HearAll(r, DeliverGroups(KeyPresses(s, [], number, ts), copies)) == PressAll(r, [], ts, s.total)
  {
  }

  lemma ChannelTail(s: Sender, events: seq<Event>, copies: seq<seq<nat>>)
    requires events != [] && Channel(s, events, copies)
    ensures copies != [] && |copies[0]| == Size(s) && EndArrives(copies[0])
    ensures Channel(s, events[1..], copies[1..])
  {
    hide Size, EndArrives;
  }

  lemma Unfolding(r: Receiver, s: Sender, events: seq<Event>, number: nat, ts: nat)
    requires events != []
    ensures PressAll(r, events, ts, s.total)
            == PressAll(Pressed(r, Low32(ts), events[0]), events[1..], ts + s.total, s.total)
    ensures KeyPresses(s, events, number, ts)
            == [KeyPress(s, events[0], number, ts)]
               + KeyPresses(s, events[1..], number + Size(s), ts + s.total)
  {
    hide Pressed, KeyPress, Size, Held;
  }

  lemma DeliverCons(first: seq<Packet>, others: seq<seq<Packet>>, copies: seq<seq<nat>>)
    requires copies != []
    ensures DeliverGroups([first] + others, copies) == Deliver(first, copies[0]) + DeliverGroups(others, copies[1..])
  {
    hide Deliver;
    assert ([first] + others)[1..] == others;
  }

  lemma OneKeyHeard(r: Receiver, s: Sender, event: Event, number: nat, ts: nat, copies: seq<nat>)
    requires r.dtmfPt == Some(s.pt)
    requires |copies| == Size(s) && EndArrives(copies)
    ensures HearAll(r, Deliver(KeyPress(s, event, number, ts), copies)) == Pressed(r, Low32(ts), event)
    ensures Pressed(r, Low32(ts), event).dtmfPt == r.dtmfPt
  {
    HearKeyPress(r, s, event, number, ts, 0, copies);
    EndsCount(copies, Held(s));
    assert KeyPress(s, event, number, ts)[0..] == KeyPress(s, event, number, ts);
    PressedTwice(r, Low32(ts), event);
  }

  lemma EndsCount(copies: seq<nat>, ends: nat)
    requires |copies| == ends + 3 && EndArrives(copies)
    ensures exists k :: 0 <= k < |copies| && 0 + k >= ends && copies[k] > 0
  {
  }

  /** The key of the i-th press differs from the one before it. */
  predicate Distinct(last: Option<(u32, Event)>, events: seq<Event>, ts: nat, total: nat) {
    && (events != [] ==> last != Some((Low32(ts), events[0])))
    && (total % WRAP32 == 0 ==> forall i :: 0 < i < |events| ==> events[i] != events[i - 1])
  }

  lemma TimestampMoves(ts: nat, total: nat)
    ensures Low32(ts + total) == Low32(ts) <==> total % WRAP32 == 0
  {
  }

  lemma {:induction false} PressAllReports(r: Receiver, events: seq<Event>, ts: nat, total: nat)
    ensures |PressAll(r, events, ts, total).reported| <= |r.reported| + |events|
    ensures PressAll(r, events, ts, total).reported == r.reported + Chars(events)
            <==> Distinct(r.lastEvent, events, ts, total)
    decreases |events|
  {
    CharsLength(events);
    if events != [] {
      var next := Pressed(r, Low32(ts), events[0]);
      PressAllReports(next, events[1..], ts + total, total);
      CharsLength(events[1..]);
      TimestampMoves(ts, total);
      DistinctStep(r.lastEvent, events, ts, total);
      assert r.reported + Chars(events) == (r.reported + [DTMF_CHARS[events[0]]]) + Chars(events[1..]);
    }
  }

  lemma DistinctStep(last: Option<(u32, Event)>, events: seq<Event>, ts: nat, total: nat)
    requires events != []
    ensures Distinct(last, events, ts, total)
            <==> (last != Some((Low32(ts), events[0]))
                  && Distinct(Some((Low32(ts), events[0])), events[1..], ts + total, total))
  {
    TimestampMoves(ts, total);
    var rest := events[1..];
    if total % WRAP32 == 0 {
      assert forall i :: 0 < i < |rest| ==> rest[i] == events[i + 1] && rest[i - 1] == events[i];
      if forall i :: 0 < i < |rest| ==> rest[i] != rest[i - 1] {
        forall i | 1 < i < |events| ensures events[i] != events[i - 1] {
          assert rest[i - 1] != rest[i - 2];
        }
      }
    }
  }

  lemma {:induction false} CharsLength(events: seq<Event>)
    ensures |Chars(events)| == |events|
    decreases |events|
  {
    if events != [] {
      CharsLength(events[1..]);
    }
  }

  // ---- End to end ----

  /** The telephone-event packets among the datagrams that arrive. */
  function EventPackets(dtmfPt: Option<u7>, datagrams: seq<bytes>): seq<Packet>
    decreases |datagrams|
  {
    if datagrams == [] then []
    else
      (match Decode(datagrams[0])
       case Some(p) => if dtmfPt == Some(p.pt) then [p] else []
       case None => [])
      + EventPackets(dtmfPt, datagrams[1..])
  }

  /** Audio, malformed datagrams and anything else on the port leave the digits alone. */
  lemma {:induction false} OnlyEventsCount(r: Receiver, datagrams: seq<bytes>)
    ensures ReceiveAll(r, datagrams) == HearAll(r, EventPackets(r.dtmfPt, datagrams))
    decreases |datagrams|
  {
    hide Decode, HandleDtmf;
    if datagrams != [] {
      var next := Receive(r, datagrams[0]);
      KeepsType(r, datagrams[0]);
      OnlyEventsCount(next, datagrams[1..]);
      var rest := EventPackets(r.dtmfPt, datagrams[1..]);
      match Decode(datagrams[0]) {
        case Some(p) =>
          if r.dtmfPt == Some(p.pt) {
            HearConcat(r, [p], rest);
            assert HearAll(r, [p]) == HearAll(next, []);
          } else {
            assert EventPackets(r.dtmfPt, datagrams) == rest;
          }
        case None =>
          assert EventPackets(r.dtmfPt, datagrams) == rest;
      }
    }
  }

  lemma KeepsType(r: Receiver, data: bytes)
    ensures Receive(r, data).dtmfPt == r.dtmfPt
  {
    hide Decode;
  }

  /** What is sent is what a loss-free wire delivers. */
  lemma {:induction false} EncodedArrive(pt: u7, packets: seq<Packet>)
    requires forall i :: 0 <= i < |packets| ==> packets[i].pt == pt
    ensures EventPackets(Some(pt), EncodeAll(packets)) == packets
    decreases |packets|
  {
    hide Encode, Decode;
    if packets != [] {
      DecodeEncode(packets[0]);
      assert EncodeAll(packets)[0] == Encode(packets[0]) && EncodeAll(packets)[1..] == EncodeAll(packets[1..]);
      EncodedArrive(pt, packets[1..]);
    }
  }

  /** The digits arrive exactly, whatever is lost, repeated or mixed in, if and only if no key press
      carries the timestamp and event of the one before it. */
  lemma DtmfExact(r: Receiver, s: Sender, digits: string, number: nat, ts: nat, copies: seq<seq<nat>>,
                  datagrams: seq<bytes>)
    requires r.dtmfPt == Some(s.pt) && Channel(s, Events(digits), copies)
    requires EventPackets(r.dtmfPt, datagrams) == DeliverGroups(KeyPresses(s, Events(digits), number, ts), copies)
    ensures ReceiveAll(r, datagrams).reported == r.reported + ValidDigits(digits)
            <==> Distinct(r.lastEvent, Events(digits), ts, s.total)
  {
    hide Events, HearAll, PressAll, Distinct, KeyPresses, DeliverGroups, EndArrives, Size, Held;
    var events := Events(digits);
    OnlyEventsCount(r, datagrams);
    EventsSpellDigits(digits);
    PressAllReports(r, events, ts, s.total);
    ChannelIsTransparent(r, s, events, number, ts, copies);
  }

  /** With the source's 100 ms per key: the receiver reports every digit, repeated digits and timestamp wrap-around
      included, if and only if it has not just heard the first key at that very timestamp and, should the clock stand
      still for the length of a key, no two neighbouring digits are the same. The clock does not stand still at any
      rate from 10 Hz up to 2^32 Hz. */
  lemma DtmfSurvives(r: Receiver, s: Sender, digits: string, number: nat, ts: nat, copies: seq<seq<nat>>,
                     datagrams: seq<bytes>)
    requires r.dtmfPt == Some(s.pt) && Channel(s, Events(digits), copies)
    requires EventPackets(r.dtmfPt, datagrams) == DeliverGroups(KeyPresses(s, Events(digits), number, ts), copies)
    requires s.total == s.clock * 100 / 1000
    ensures ReceiveAll(r, datagrams).reported == r.reported + ValidDigits(digits)
            <==> var events := Events(digits);
                 && (events != [] ==> r.lastEvent != Some((Low32(ts), events[0])))
                 && (StandsStill(s.clock) ==> forall i :: 0 < i < |events| ==> events[i] != events[i - 1])
    ensures 10 <= s.clock < WRAP32 ==> !StandsStill(s.clock)
  {
    hide ReceiveAll, Events, DeliverGroups, KeyPresses, EventPackets, Channel;
    DtmfExact(r, s, digits, number, ts, copies, datagrams);
    if 10 <= s.clock < WRAP32 {
      ShortKeys(s.clock);
    }
  }

  /** A key of 100 ms that leaves the timestamp where it was. */
  predicate StandsStill(clock: nat) {
    clock * 100 / 1000 % WRAP32 == 0
  }

  lemma ShortKeys(clock: nat)
    requires 10 <= clock < WRAP32
    ensures !StandsStill(clock)
  {
    assert 0 < clock * 100 / 1000 < WRAP32;
  }

  /** A key held for a multiple of 2^32 ticks and pressed twice is reported once. */
  lemma RepeatedKeyLost()
    ensures var r := Receiver(Some(101), None, "");
            PressAll(r, Events("55"), 0, WRAP32).reported == "5" && ValidDigits("55") == "55"
  {
    var r := Receiver(Some(101), None, "");
    assert Events("5") == [5] by {
      assert "5"[1..] == "";
      assert Events("") == [];
      assert '5' as nat - '0' as nat == 5;
    }
    assert Events("55") == [5, 5] by { assert "55"[1..] == "5"; assert '5' as nat - '0' as nat == 5; }
    var once := Pressed(r, 0, 5);
    assert once.reported == "5";
    assert PressAll(r, [5, 5], 0, WRAP32) == PressAll(once, [5], WRAP32, WRAP32) by { assert [5, 5][1..] == [5]; }
    assert PressAll(once, [5], WRAP32, WRAP32) == PressAll(Pressed(once, 0, 5), [], WRAP32 + WRAP32, WRAP32) by {
      assert [5][1..] == [];
    }
    assert "55"[1..] == "5" && "5"[1..] == "";
    assert '5' in DTMF_CHARS by { assert DTMF_CHARS[5] == '5'; }
    assert ValidDigits("5") == "5";
  }

  lemma KeyPressNumber(s: Sender, event: Event, number: nat, ts: nat, k: nat)
    requires k < |KeyPress(s, event, number, ts)|
    ensures KeyPress(s, event, number, ts)[k].number == Low16(number + k)
  {
    hide Progress, EventPayload;
    assert KeyPress(s, event, number, ts)[k] == KeyPacket(s, event, number, ts, k);
  }

  /** Over all key presses the sequence numbers are consecutive modulo 2^16. */
  lemma {:induction false} NumbersConsecutive(s: Sender, events: seq<Event>, number: nat, ts: nat, i: nat)
    requires i < |Flatten(KeyPresses(s, events, number, ts))|
    ensures Flatten(KeyPresses(s, events, number, ts))[i].number == Low16(number + i)
    decreases |events|
  {
    hide KeyPress, Size, Held;
    if events != [] {
      var size := Size(s);
      var first := KeyPress(s, events[0], number, ts);
      assert KeyPresses(s, events, number, ts)[1..] == KeyPresses(s, events[1..], number + size, ts + s.total);
      if i < size {
        KeyPressNumber(s, events[0], number, ts, i);
      } else {
        NumbersConsecutive(s, events[1..], number + size, ts + s.total, i - size);
      }
    }
  }
}
