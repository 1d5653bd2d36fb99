/** RTP packets as anybody may send them (section 5.1 of RFC 3550), and telephone events as anybody reads them
    (section 2.3 of RFC 4733): what sipgram/sip/rtp.py makes of the former and how the latter come out of it. */
module RtpPackets {
  import opened Options
  import opened Bytes
  import opened Text
  import opened Rtp

  // ---- The general packet ----

  /** A header extension: 16 bits of its profile's choice, and 32-bit words. */
  datatype Extension = Extension(profile: u16, words: seq<u32>)

  /** What may stand around a payload: contributing sources, an extension, and padding whose last byte counts it. */
  datatype Dress = Dress(sources: seq<u32>, extension: Option<Extension>, padding: bytes)

  predicate Proper(d: Dress) {
    && |d.sources| <= 15
    && (d.extension.Some? ==> |d.extension.value.words| < 0x1_0000)
    && (d.padding != [] ==> |d.padding| < 256 && d.padding[|d.padding| - 1] as nat == |d.padding|)
  }

  function Words(xs: seq<u32>): (packed: bytes)
    ensures |packed| == 4 * |xs|
  {
    if xs == [] then [] else PackBig(xs[0], 4) + Words(xs[1..])
  }

  function ExtensionBytes(extension: Option<Extension>): (packed: bytes)
    ensures |packed| == if extension.Some? then 4 + 4 * |extension.value.words| else 0
  {
    match extension
    case None => []
    case Some(x) => PackBig(x.profile, 2) + PackBig(|x.words|, 2) + Words(x.words)
  }

  /** The packet on the wire. */
  function Print(p: Packet, d: Dress): bytes
    requires Proper(d)
  {
    var flags := 128 + (if d.padding != [] then 32 else 0) + (if d.extension.Some? then 16 else 0) + |d.sources|;
    [flags as byte, ((if p.marker then 128 else 0) + p.pt) as byte]
    + PackBig(p.number, 2) + PackBig(p.timestamp, 4) + PackBig(p.ssrc, 4)
    + Words(d.sources) + ExtensionBytes(d.extension) + p.payload + d.padding
  }

  lemma Parts(head: bytes, a: bytes, b: bytes, c: bytes, sources: bytes, extension: bytes, payload: bytes,
              padding: bytes)
    requires |head| == 2 && |a| == 2 && |b| == 4 && |c| == 4
    ensures var data := head + a + b + c + sources + extension + payload + padding; var at := 12 + |sources|;
            && data[0] == head[0] && data[1] == head[1]
            && data[2..4] == a && data[4..8] == b && data[8..12] == c
            && (|extension| >= 4 ==> data[at + 2..at + 4] == extension[2..4])
            && data[at + |extension|..|data| - |padding|] == payload
            && (padding != [] ==> data[|data| - 1] == padding[|padding| - 1])
  {
  }

  lemma Flags(padded: bool, extended: bool, sources: nat)
    requires sources <= 15
    ensures var flags := 128 + (if padded then 32 else 0) + (if extended then 16 else 0) + sources;
            && flags < 256
            && flags / 64 == 2 && flags % 16 == sources
            && (flags / 16 % 2 == 1 <==> extended) && (flags / 32 % 2 == 1 <==> padded)
  {
  }

  lemma WordCount(x: Extension)
    requires |x.words| < 0x1_0000
    ensures var packed := ExtensionBytes(Some(x)); |packed| >= 4 && UnpackBig(packed[2..4]) == |x.words|
  {
    hide PackBig, UnpackBig, Pow256, Words;
    Powers();
    BigRoundTrip(|x.words|, 2);
    assert ExtensionBytes(Some(x))[2..4] == PackBig(|x.words|, 2);
  }

  function FlagsOf(d: Dress): nat {
    128 + (if d.padding != [] then 32 else 0) + (if d.extension.Some? then 16 else 0) + |d.sources|
  }

  /** The pieces of a printed packet. */
  lemma PrintedParts(p: Packet, d: Dress)
    requires Proper(d)
    ensures var data := Print(p, d); var at := 12 + 4 * |d.sources|; var extension := ExtensionBytes(d.extension);
            && |data| == at + |extension| + |p.payload| + |d.padding| && FlagsOf(d) < 256
            && data[0] as nat == FlagsOf(d) && data[1] as nat == (if p.marker then 128 else 0) + p.pt
            && data[2..4] == PackBig(p.number, 2) && data[4..8] == PackBig(p.timestamp, 4)
            && data[8..12] == PackBig(p.ssrc, 4)
            && (d.extension.Some? ==> |extension| >= 4 && data[at + 2..at + 4] == extension[2..4])
            && data[at + |extension|..|data| - |d.padding|] == p.payload
            && (d.padding != [] ==> data[|data| - 1] == d.padding[|d.padding| - 1])
  {
    hide PackBig, Words, ExtensionBytes;
    Flags(d.padding != [], d.extension.Some?, |d.sources|);
    Parts([FlagsOf(d) as byte, ((if p.marker then 128 else 0) + p.pt) as byte], PackBig(p.number, 2),
          PackBig(p.timestamp, 4), PackBig(p.ssrc, 4), Words(d.sources), ExtensionBytes(d.extension), p.payload,
          d.padding);
  }

  lemma HeaderReads(p: Packet)
    ensures UnpackBig(PackBig(p.number, 2)) == p.number && UnpackBig(PackBig(p.timestamp, 4)) == p.timestamp
    ensures UnpackBig(PackBig(p.ssrc, 4)) == p.ssrc
  {
    hide PackBig, UnpackBig, Pow256;
    Powers();
    BigRoundTrip(p.number, 2);
    BigRoundTrip(p.timestamp, 4);
    BigRoundTrip(p.ssrc, 4);
  }

  /** Whatever stands around it, the payload is found, and the header is read as it was meant. */
  lemma AnyPacketDecodes(p: Packet, d: Dress)
    requires Proper(d)
    ensures Decode(Print(p, d)) == Some(p)
  {
    hide PackBig, UnpackBig, Words, ExtensionBytes, PySlice, Print, Decode;
    HeaderReads(p);
    PrintedParts(p, d);
    Flags(d.padding != [], d.extension.Some?, |d.sources|);
    var data := Print(p, d);
    if d.extension.Some? {
      WordCount(d.extension.value);
    }
    var offset, end := 12 + 4 * |d.sources| + |ExtensionBytes(d.extension)|, |data| - |d.padding|;
    Sliced(data, offset, end);
    DecodedAt(data, offset, end);
  }

  lemma Sliced(data: bytes, lo: nat, hi: nat)
    requires lo <= hi <= |data|
    ensures PySlice(data, lo, hi) == data[lo..hi]
  {
  }

  /** A datagram whose payload is known to begin and end there. */
  lemma DecodedAt(data: bytes, offset: nat, end: nat)
    requires |data| >= 12 && data[0] / 64 == 2 && offset <= end <= |data|
    requires var fixed := 12 + (data[0] % 16) as nat * 4;
             if data[0] / 16 % 2 == 1 then
               |data| >= fixed + 4 && offset == fixed + 4 + UnpackBig(data[fixed + 2..fixed + 4]) * 4
             else offset == fixed
    requires if data[0] / 32 % 2 == 1 then |data| > offset && end == |data| - data[|data| - 1] as int else end == |data|
    ensures Decode(data) == Some(Packet(data[1] >= 128, (data[1] % 128) as nat, UnpackBig(data[2..4]),
                                        UnpackBig(data[4..8]), UnpackBig(data[8..12]), PySlice(data, offset, end)))
  {
    hide UnpackBig, PySlice;
  }

  // ---- Digits in such packets ----

  function PrintAll(packets: seq<Packet>, dress: seq<Dress>): (datagrams: seq<bytes>)
    requires |dress| == |packets| && forall i :: 0 <= i < |dress| ==> Proper(dress[i])
    ensures |datagrams| == |packets|
  {
    if packets == [] then [] else [Print(packets[0], dress[0])] + PrintAll(packets[1..], dress[1..])
  }

  lemma {:induction false} DressedArrive(pt: u7, packets: seq<Packet>, dress: seq<Dress>)
    requires |dress| == |packets| && forall i :: 0 <= i < |dress| ==> Proper(dress[i])
    requires forall i :: 0 <= i < |packets| ==> packets[i].pt == pt
    ensures EventPackets(Some(pt), PrintAll(packets, dress)) == packets
    decreases |packets|
  {
    hide Print, Decode, Proper;
    if packets != [] {
      AnyPacketDecodes(packets[0], dress[0]);
      DressedArrive(pt, packets[1..], dress[1..]);
      var all := PrintAll(packets, dress);
      assert all[0] == Print(packets[0], dress[0]) && all[1..] == PrintAll(packets[1..], dress[1..]);
    }
  }

  /** Digits arrive from packets with any sources, extensions and padding exactly as they do from plain ones. */
  lemma DtmfDressed(r: Receiver, s: Sender, digits: string, number: nat, ts: nat, copies: seq<seq<nat>>,
                    dress: seq<Dress>)
    requires r.dtmfPt == Some(s.pt) && Channel(s, Events(digits), copies)
    requires |dress| == |DeliverGroups(KeyPresses(s, Events(digits), number, ts), copies)|
    requires forall i :: 0 <= i < |dress| ==> Proper(dress[i])
    ensures var datagrams := PrintAll(DeliverGroups(KeyPresses(s, Events(digits), number, ts), copies), dress);
            ReceiveAll(r, datagrams).reported == r.reported + ValidDigits(digits)
            <==> Distinct(r.lastEvent, Events(digits), ts, s.total)
  {
    hide Proper, Print, Channel, KeyPress, Distinct, EventPackets;
    var packets := DeliverGroups(KeyPresses(s, Events(digits), number, ts), copies);
    GroupsTyped(s, Events(digits), number, ts, copies);
    DressedArrive(s.pt, packets, dress);
    DtmfExact(r, s, digits, number, ts, copies, PrintAll(packets, dress));
  }

  predicate Typed(pt: u7, packets: seq<Packet>) {
    forall i :: 0 <= i < |packets| ==> packets[i].pt == pt
  }

  lemma {:induction false} GroupsTyped(s: Sender, events: seq<Event>, number: nat, ts: nat, copies: seq<seq<nat>>)
    ensures Typed(s.pt, DeliverGroups(KeyPresses(s, events, number, ts), copies))
    decreases |events|
  {
    hide KeyPress, Deliver, Typed;
    var groups := KeyPresses(s, events, number, ts);
    NoneTyped(s.pt);
    if events != [] && copies != [] {
      var group := KeyPress(s, events[0], number, ts);
      KeyTyped(s, events[0], number, ts);
      DeliverTyped(s.pt, group, copies[0]);
      GroupsTyped(s, events[1..], number + Size(s), ts + s.total, copies[1..]);
      assert groups[0] == group && groups[1..] == KeyPresses(s, events[1..], number + Size(s), ts + s.total);
      BothTyped(s.pt, Deliver(group, copies[0]), DeliverGroups(groups[1..], copies[1..]));
    }
  }

  lemma NoneTyped(pt: u7)
    ensures Typed(pt, [])
  {
  }

  lemma BothTyped(pt: u7, a: seq<Packet>, b: seq<Packet>)
    requires Typed(pt, a) && Typed(pt, b)
    ensures Typed(pt, a + b)
  {
  }

  lemma KeyTyped(s: Sender, event: Event, number: nat, ts: nat)
    ensures Typed(s.pt, KeyPress(s, event, number, ts))
  {
  }

  lemma {:induction false} DeliverTyped(pt: u7, packets: seq<Packet>, copies: seq<nat>)
    requires Typed(pt, packets)
    ensures Typed(pt, Deliver(packets, copies))
    decreases |packets|
  {
    if packets != [] && copies != [] {
      DeliverTyped(pt, packets[1..], copies[1..]);
      assert packets[0].pt == pt;
      BothTyped(pt, Repeat(packets[0], copies[0]), Deliver(packets[1..], copies[1..]));
    }
  }

  // ---- Telephone events as a receiver reads them ----

  datatype Report = Report(event: nat, end: bool, volume: nat, duration: nat)

  /** The four bytes of an event: its number; the end bit, a reserved bit and the volume; and the duration. */
  function ReadReport(payload: bytes): Option<Report> {
    if |payload| != 4 then None
    else
      Some(Report(payload[0] as nat, payload[1] >= 128, (payload[1] % 64) as nat,
                  payload[2] as nat * 256 + payload[3] as nat))
  }

  lemma ReportReadsBack(event: Event, end: bool, duration: nat)
    ensures ReadReport(EventPayload(event, end, duration))
            == Some(Report(event, end, 10, if duration < 0xFFFF then duration else 0xFFFF))
  {
    var n := if duration < 0xFFFF then duration else 0xFFFF;
    assert PackBig(n, 2) == PackBig(n / 256, 1) + [(n % 256) as byte];
    assert PackBig(n / 256, 1) == PackBig(n / 256 / 256, 0) + [(n / 256 % 256) as byte];
    var payload := EventPayload(event, end, duration);
    assert payload[2] as nat == n / 256 && payload[3] as nat == n % 256;
  }

  function Least(a: nat, b: nat): nat {
    if a < b then a else b
  }

  /** The duration reported by progress packet k. */
  lemma {:induction false} ProgressAt(elapsed: nat, step: nat, total: nat, k: nat)
    requires step > 0 && elapsed <= total && k < |Progress(elapsed, step, total)|
    ensures Progress(elapsed, step, total)[k] == Least(elapsed + (k + 1) * step, total)
    ensures elapsed + k * step < total
    decreases k
  {
    if k > 0 {
      if elapsed + step < total {
        ProgressAt(elapsed + step, step, total, k - 1);
        assert (elapsed + step) + k * step == elapsed + (k + 1) * step;
        assert (elapsed + step) + (k - 1) * step == elapsed + k * step;
      }
    }
  }

  lemma {:induction false} ProgressEnds(elapsed: nat, step: nat, total: nat)
    requires step > 0 && elapsed <= total
    ensures elapsed + |Progress(elapsed, step, total)| * step >= total
    decreases total - elapsed
  {
    if elapsed < total {
      if elapsed + step < total {
        ProgressEnds(elapsed + step, step, total);
        var n := |Progress(elapsed + step, step, total)|;
        assert elapsed + step + n * step == elapsed + (n + 1) * step;
      } else {
        assert |Progress(elapsed, step, total)| == 1;
      }
    }
  }

  /** What a receiver reads from packet k of a key press: the key, the time the key has been held so far in steps of
      20 ms up to the total, and the end in the last three packets only; the first packet alone is marked; as many
      progress packets as the total has steps. */
  lemma KeyPressReads(s: Sender, event: Event, number: nat, ts: nat, k: nat)
    requires k < Size(s)
    ensures var p := KeyPress(s, event, number, ts)[k]; var held := Size(s) - 3;
            && held as int * s.step >= s.total && (held > 0 ==> (held - 1) * s.step < s.total)
            && ReadReport(p.payload)
               == Some(Report(event, k >= held, 10,
                              Least(if k < held then Least((k + 1) * s.step, s.total) else s.total, 0xFFFF)))
            && (p.marker <==> k == 0 && held > 0)
            && p.number == Low16(number + k) && p.timestamp == Low32(ts) && p.pt == s.pt && p.ssrc == s.ssrc
  {
    hide Progress, EventPayload, ReadReport;
    var held := Held(s);
    ProgressEnds(0, s.step, s.total);
    if held > 0 {
      ProgressAt(0, s.step, s.total, held - 1);
    }
    if k < held {
      ProgressAt(0, s.step, s.total, k);
      ReportReadsBack(event, false, Progress(0, s.step, s.total)[k]);
    } else {
      ReportReadsBack(event, true, s.total);
    }
  }
}
