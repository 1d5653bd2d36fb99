/** The Ogg/Opus writer of sipgram/audio/ogg.py, and a reader that follows section 6 of RFC 3533. */
module Ogg {
  import opened Options
  import opened Bytes
  import Crc

  const PRE_SKIP: nat := 312
  const BEGIN_OF_STREAM: byte := 2
  const END_OF_STREAM: byte := 4
  const MAX_SEGMENTS: nat := 255
  /** A payload of 255 full segments still needs a closing one, so this is the first length that does not fit. */
  const MAX_PAYLOAD: nat := 65025

  // ---- The checksum over octets ----

  function Words(data: bytes): seq<bv8> {
    seq(|data|, i requires 0 <= i < |data| => data[i] as bv8)
  }

  function Checksum(data: bytes): bv32 {
    Crc.Remainder(Words(data))
  }

  /** struct.pack("<I", crc). */
  function PackCrc(c: bv32): (packed: bytes)
    ensures |packed| == 4
  {
    PackLittle(c as nat, 4)
  }

  // ---- Pages ----

  /** The lacing values of one packet: full segments of 255 and a last one below 255. */
  function Lacing(length: nat): seq<nat> {
    if length >= 255 then [255] + Lacing(length - 255) else [length]
  }

  lemma {:induction false} LacingFits(length: nat)
    ensures |Lacing(length)| == length / 255 + 1
    ensures |Lacing(length)| <= MAX_SEGMENTS <==> length < MAX_PAYLOAD
    ensures forall i :: 0 <= i < |Lacing(length)| ==> Lacing(length)[i] <= 255
  {
    if length >= 255 {
      LacingFits(length - 255);
    }
  }

  function LacingBytes(lacing: seq<nat>): (packed: bytes)
    requires forall i :: 0 <= i < |lacing| ==> lacing[i] <= 255
    ensures |packed| == |lacing|
  {
    seq(|lacing|, i requires 0 <= i < |lacing| => lacing[i] as byte)
  }

  /** What struct.pack accepts; beyond it the source raises struct.error. */
  predicate PageFits(payload: bytes, granule: nat, serial: nat, number: nat) {
    |payload| < MAX_PAYLOAD && granule < 0x8000_0000_0000_0000 && serial < 0x1_0000_0000 && number < 0x1_0000_0000
  }

  /** The first 22 bytes: everything before the checksum. */
  function Prefix(kind: byte, granule: nat, serial: nat, number: nat): (packed: bytes)
    ensures |packed| == 22
  {
    [0x4F, 0x67, 0x67, 0x53, 0, kind] + PackLittle(granule, 8) + PackLittle(serial, 4) + PackLittle(number, 4)
  }

  /** Everything after the checksum. */
  function Suffix(payload: bytes): bytes
    requires |payload| < MAX_PAYLOAD
  {
    LacingFits(|payload|);
    [|Lacing(|payload|)| as byte] + LacingBytes(Lacing(|payload|)) + payload
  }

  const NO_CRC: bytes := [0, 0, 0, 0]

  function PageBytes(payload: bytes, kind: byte, granule: nat, serial: nat, number: nat): bytes
    requires PageFits(payload, granule, serial, number)
  {
    var front, back := Prefix(kind, granule, serial, number), Suffix(payload);
    front + PackCrc(Checksum(front + NO_CRC + back)) + back
  }

  // ---- The reader ----

  datatype Page = Page(kind: byte, granule: nat, serial: nat, number: nat, lacing: seq<nat>, payload: bytes)

  function Sum(xs: seq<nat>): nat {
    if xs == [] then 0 else xs[0] + Sum(xs[1..])
  }

  function Values(packed: bytes): seq<nat> {
    seq(|packed|, i requires 0 <= i < |packed| => packed[i] as nat)
  }

  /** One page off the front of the stream: capture pattern, version, checksum over the page with a
      zero checksum field, then as many payload bytes as the segment table says. */
  function ReadPage(data: bytes): (r: Option<(Page, bytes)>)
    ensures r.Some? ==> |r.value.1| < |data|
  {
    if |data| < 27 || data[..6] != [0x4F, 0x67, 0x67, 0x53, 0, data[5]] then None
    else
      var segments := data[26] as nat;
      if |data| < 27 + segments then None
      else
        var lacing := Values(data[27..27 + segments]);
        var total := 27 + segments + Sum(lacing);
        if |data| < total || data[22..26] != PackCrc(Checksum(data[..22] + NO_CRC + data[26..total])) then None
        else
          Some((Page(data[5], UnpackLittle(data[6..14]), UnpackLittle(data[14..18]), UnpackLittle(data[18..22]), lacing,
                     data[27 + segments..total]), data[total..]))
  }

  function ReadPages(data: bytes): Option<seq<Page>>
    decreases |data|
  {
    if data == [] then Some([])
    else match ReadPage(data)
      case None => None
      case Some((page, rest)) =>
        match ReadPages(rest)
        case None => None
        case Some(pages) => Some([page] + pages)
  }

  /** Cuts a payload along its segment table. A segment below 255 completes a packet; `partial` is
      what earlier pages left unfinished. */
  function Segments(lacing: seq<nat>, payload: bytes, partial: bytes): (seq<bytes>, bytes)
    decreases |lacing|
  {
    if lacing == [] || lacing[0] > |payload| then ([], partial)
    else
      var segment := partial + payload[..lacing[0]];
      if lacing[0] == 255 then Segments(lacing[1..], payload[255..], segment)
      else
        var (packets, left) := Segments(lacing[1..], payload[lacing[0]..], []);
        ([segment] + packets, left)
  }

  /** The packets of the pages from `partial` on, and what stays unfinished at the end. */
  function Packets(pages: seq<Page>, partial: bytes): (seq<bytes>, bytes)
    decreases |pages|
  {
    if pages == [] then ([], partial)
    else
      var (first, left) := Segments(pages[0].lacing, pages[0].payload, partial);
      var (others, end) := Packets(pages[1..], left);
      (first + others, end)
  }

  // ---- One written page reads back ----

  lemma {:induction false} LacingSums(length: nat)
    ensures Sum(Lacing(length)) == length
  {
    if length >= 255 {
      LacingSums(length - 255);
      assert Lacing(length)[1..] == Lacing(length - 255);
    }
  }

  lemma LacingBytesRoundTrip(lacing: seq<nat>)
    requires forall i :: 0 <= i < |lacing| ==> lacing[i] <= 255
    ensures Values(LacingBytes(lacing)) == lacing
  {
  }

  lemma PrefixFields(kind: byte, granule: nat, serial: nat, number: nat)
    requires granule < 0x8000_0000_0000_0000 && serial < 0x1_0000_0000 && number < 0x1_0000_0000
    ensures var p := Prefix(kind, granule, serial, number);
            && p[..6] == [0x4F, 0x67, 0x67, 0x53, 0, kind] && p[5] == kind
            && UnpackLittle(p[6..14]) == granule && UnpackLittle(p[14..18]) == serial
                && UnpackLittle(p[18..22]) == number
  {
    Powers();
    LittleRoundTrip(granule, 8);
    LittleRoundTrip(serial, 4);
    LittleRoundTrip(number, 4);
    hide PackLittle, UnpackLittle, Pow256;
    FourParts([0x4F, 0x67, 0x67, 0x53, 0, kind], PackLittle(granule, 8), PackLittle(serial, 4), PackLittle(number, 4));
  }

  lemma FourParts(a: bytes, b: bytes, c: bytes, d: bytes)
    ensures var all := a + b + c + d;
            && all[..|a|] == a && all[|a|..|a| + |b|] == b
            && all[|a| + |b|..|a| + |b| + |c|] == c && all[|a| + |b| + |c|..|a| + |b| + |c| + |d|] == d
  {
  }

  function PageOf(payload: bytes, kind: byte, granule: nat, serial: nat, number: nat): Page {
    Page(kind, granule, serial, number, Lacing(|payload|), payload)
  }

  /** The reader takes exactly one written page off the front, its checksum valid, whatever follows. */
  lemma PageReadsBack(payload: bytes, kind: byte, granule: nat, serial: nat, number: nat, rest: bytes)
    requires PageFits(payload, granule, serial, number)
    ensures ReadPage(PageBytes(payload, kind, granule, serial, number) + rest)
            == Some((PageOf(payload, kind, granule, serial, number), rest))
  {
    hide Checksum, PackCrc, PackLittle, UnpackLittle, Lacing, Sum;
    var front, back := Prefix(kind, granule, serial, number), Suffix(payload);
    var crc := PackCrc(Checksum(front + NO_CRC + back));
    var data := PageBytes(payload, kind, granule, serial, number) + rest;
    var lacing := Lacing(|payload|);
    LacingFits(|payload|);
    LacingSums(|payload|);
    LacingBytesRoundTrip(lacing);
    PrefixFields(kind, granule, serial, number);
    assert data == front + (crc + (back + rest));
    assert data[..22] == front && data[22..26] == crc && data[26..] == back + rest;
    assert data[..6] == front[..6] && data[5] == front[5] && data[6..14] == front[6..14];
    assert data[14..18] == front[14..18] && data[18..22] == front[18..22];
    var segments := |lacing|;
    assert data[26] == segments as byte;
    assert data[27..27 + segments] == LacingBytes(lacing);
    var total := 27 + segments + |payload|;
    assert data[26..total] == back;
    assert data[27 + segments..total] == payload && data[total..] == rest;
  }

  // ---- Streams concatenate ----

  lemma {:induction false} ReadPagesSnoc(data: bytes, pages: seq<Page>, last: bytes, page: Page)
    requires ReadPages(data) == Some(pages)
    requires ReadPage(last) == Some((page, []))
    ensures ReadPages(data + last) == Some(pages + [page])
    decreases |data|
  {
    hide ReadPage;
    if data == [] {
      assert data + last == last;
      assert pages + [page] == [page] + [];
    } else {
      var (first, rest) := ReadPage(data).value;
      ReadPageExtends(data, last);
      ReadPagesSnoc(rest, pages[1..], last, page);
      assert pages + [page] == [first] + (pages[1..] + [page]);
    }
  }

  /** Reading a page does not look past its end. */
  lemma ReadPageExtends(data: bytes, more: bytes)
    requires ReadPage(data).Some?
    ensures ReadPage(data + more) == Some((ReadPage(data).value.0, ReadPage(data).value.1 + more))
  {
    hide Checksum, PackCrc, UnpackLittle, Sum, Values;
    var all := data + more;
    Slice(data, more, 0, 6);
    Slice(data, more, 6, 14);
    Slice(data, more, 14, 18);
    Slice(data, more, 18, 22);
    Slice(data, more, 0, 22);
    Slice(data, more, 22, 26);
    var segments := data[26] as nat;
    Slice(data, more, 27, 27 + segments);
    var total := 27 + segments + Sum(Values(data[27..27 + segments]));
    Slice(data, more, 26, total);
    Slice(data, more, 27 + segments, total);
    assert all[total..] == data[total..] + more;
  }

  lemma Slice(data: bytes, more: bytes, lo: nat, hi: nat)
    requires lo <= hi <= |data|
    ensures (data + more)[lo..hi] == data[lo..hi]
  {
  }

  /** A page holding one packet yields that packet and leaves nothing unfinished. */
  lemma {:induction false} OnePacket(payload: bytes, partial: bytes)
    ensures Segments(Lacing(|payload|), payload, partial) == ([partial + payload], [])
    decreases |payload|
  {
    var lacing := Lacing(|payload|);
    if |payload| >= 255 {
      assert lacing[1..] == Lacing(|payload| - 255);
      OnePacket(payload[255..], partial + payload[..255]);
      assert (partial + payload[..255]) + payload[255..] == partial + payload;
    } else {
      assert payload[..|payload|] == payload;
      assert Segments(lacing[1..], payload[lacing[0]..], []) == ([], []);
      assert [partial + payload] + [] == [partial + payload];
    }
  }

  predicate SinglePackets(pages: seq<Page>) {
    forall i :: 0 <= i < |pages| ==> pages[i].lacing == Lacing(|pages[i].payload|)
  }

  function Payloads(pages: seq<Page>): seq<bytes> {
    seq(|pages|, i requires 0 <= i < |pages| => pages[i].payload)
  }

  lemma {:induction false} PacketsOf(pages: seq<Page>)
    requires SinglePackets(pages)
    ensures Packets(pages, []) == (Payloads(pages), [])
    decreases |pages|
  {
    if pages != [] {
      OnePacket(pages[0].payload, []);
      assert [] + pages[0].payload == pages[0].payload;
      PacketsOf(pages[1..]);
      assert Payloads(pages) == [pages[0].payload] + Payloads(pages[1..]);
    }
  }

  // ---- The file for a list of packets ----

  /** An Opus packet and the samples it covers at 48 kHz. */
  datatype Packet = Packet(data: bytes, samples: nat)

  function Samples(packets: seq<Packet>): nat {
    if packets == [] then 0 else Samples(packets[..|packets| - 1]) + packets[|packets| - 1].samples
  }

  /** b"OpusHead" and struct.pack("<BBHIhB", 1, channels, PRE_SKIP, rate, 0, 0). */
  function OpusHead(channels: byte, rate: nat): (head: bytes)
    ensures |head| == 19
  {
    [0x4F, 0x70, 0x75, 0x73, 0x48, 0x65, 0x61, 0x64] + [1, channels] + PackLittle(PRE_SKIP, 2) + PackLittle(rate, 4)
    + PackLittle(0, 2) + [0]
  }

  /** b"OpusTags", the vendor string "sipgram" and an empty comment list. */
  function OpusTags(): (tags: bytes)
    ensures |tags| == 23
  {
    [0x4F, 0x70, 0x75, 0x73, 0x54, 0x61, 0x67, 0x73] + PackLittle(7, 4)
    + [0x73, 0x69, 0x70, 0x67, 0x72, 0x61, 0x6D] + PackLittle(0, 4)
  }

  /** The identification header of section 5.1 of RFC 7845. */
  datatype Identification = Identification(version: nat, channels: nat, preSkip: nat, rate: nat, gain: nat, family: nat)

  function ReadHead(head: bytes): Option<Identification> {
    if |head| != 19 || head[..8] != [0x4F, 0x70, 0x75, 0x73, 0x48, 0x65, 0x61, 0x64] then None
    else
      Some(Identification(head[8] as nat, head[9] as nat, UnpackLittle(head[10..12]), UnpackLittle(head[12..16]),
                          UnpackLittle(head[16..18]), head[18] as nat))
  }

  /** The comment header of section 5.2 of RFC 7845: the vendor and how many comments follow. */
  datatype Comments = Comments(vendor: bytes, count: nat)

  function ReadTags(tags: bytes): Option<Comments> {
    if |tags| < 16 || tags[..8] != [0x4F, 0x70, 0x75, 0x73, 0x54, 0x61, 0x67, 0x73] then None
    else
      var n := UnpackLittle(tags[8..12]);
      if |tags| != 16 + n then None else Some(Comments(tags[12..12 + n], UnpackLittle(tags[12 + n..])))
  }

  lemma HeadParts(channels: byte, rate: nat)
    ensures var head := OpusHead(channels, rate);
            && head[..8] == [0x4F, 0x70, 0x75, 0x73, 0x48, 0x65, 0x61, 0x64] && head[8] == 1 && head[9] == channels
            && head[10..12] == PackLittle(PRE_SKIP, 2) && head[12..16] == PackLittle(rate, 4)
            && head[16..18] == PackLittle(0, 2) && head[18] == 0
  {
    hide PackLittle;
  }

  lemma TagParts()
    ensures var tags := OpusTags();
            && tags[..8] == [0x4F, 0x70, 0x75, 0x73, 0x54, 0x61, 0x67, 0x73] && tags[8..12] == PackLittle(7, 4)
            && tags[12..19] == [0x73, 0x69, 0x70, 0x67, 0x72, 0x61, 0x6D] && tags[19..] == PackLittle(0, 4)
  {
    hide PackLittle;
  }

  /** The two headers say version 1, the channels and the rate of the stream, 312 samples to skip, no gain and the
      mapping for one or two channels; and that SIPgram wrote them, without comments. */
  lemma HeaderFields(channels: byte, rate: nat)
    requires rate < 0x1_0000_0000
    ensures ReadHead(OpusHead(channels, rate)) == Some(Identification(1, channels as nat, 312, rate, 0, 0))
    ensures ReadTags(OpusTags()) == Some(Comments([0x73, 0x69, 0x70, 0x67, 0x72, 0x61, 0x6D], 0))
  {
    hide PackLittle, UnpackLittle, OpusHead, OpusTags, Pow256;
    Powers();
    HeadParts(channels, rate);
    TagParts();
    LittleRoundTrip(PRE_SKIP, 2);
    LittleRoundTrip(rate, 4);
    LittleRoundTrip(0, 2);
    LittleRoundTrip(7, 4);
    LittleRoundTrip(0, 4);
  }

  datatype Stream = Stream(serial: nat, channels: byte, rate: nat) {
    predicate Valid() {
      serial < 0x1_0000_0000 && rate < 0x1_0000_0000
    }
  }

  /** The lists the writer can represent; outside them struct.pack raises. */
  predicate Fits(packets: seq<Packet>) {
    && (forall i :: 0 <= i < |packets| ==> |packets[i].data| < MAX_PAYLOAD)
    && Samples(packets) + PRE_SKIP < 0x8000_0000_0000_0000
    && |packets| + 1 < 0x1_0000_0000
  }

  function Headers(s: Stream): bytes
    requires s.Valid()
  {
    PageBytes(OpusHead(s.channels, s.rate), BEGIN_OF_STREAM, 0, s.serial, 0) + PageBytes(OpusTags(), 0, 0, s.serial, 1)
  }

  lemma FitsPrefix(packets: seq<Packet>)
    requires Fits(packets) && packets != []
    ensures Fits(packets[..|packets| - 1])
  {
  }

  function LastPage(s: Stream, packets: seq<Packet>, kind: byte): bytes
    requires s.Valid() && Fits(packets) && packets != []
  {
    PageBytes(packets[|packets| - 1].data, kind, Samples(packets) + PRE_SKIP, s.serial, |packets| + 1)
  }

  /** The headers and one page per packet, none of them marked as the end. */
  function OpenFile(s: Stream, packets: seq<Packet>): bytes
    requires s.Valid() && Fits(packets)
    decreases |packets|
  {
    if packets == [] then Headers(s)
    else FitsPrefix(packets); OpenFile(s, packets[..|packets| - 1]) + LastPage(s, packets, 0)
  }

  /** The finished file: the last packet's page carries the end-of-stream flag. */
  function File(s: Stream, packets: seq<Packet>): bytes
    requires s.Valid() && Fits(packets)
  {
    if packets == [] then Headers(s)
    else FitsPrefix(packets); OpenFile(s, packets[..|packets| - 1]) + LastPage(s, packets, END_OF_STREAM)
  }

  /** What a player must find: page i is number i of this stream and holds one packet; granules count
      the samples so far on top of the pre-skip. */
  function ExpectedPage(s: Stream, packets: seq<Packet>, i: nat, kind: byte): Page
    requires i < |packets| + 2
  {
    if i == 0 then PageOf(OpusHead(s.channels, s.rate), BEGIN_OF_STREAM, 0, s.serial, 0)
    else if i == 1 then PageOf(OpusTags(), 0, 0, s.serial, 1)
    else PageOf(packets[i - 2].data, kind, Samples(packets[..i - 1]) + PRE_SKIP, s.serial, i)
  }

  function OpenPages(s: Stream, packets: seq<Packet>): seq<Page> {
    seq(|packets| + 2, i requires 0 <= i < |packets| + 2 => ExpectedPage(s, packets, i, 0))
  }

  function ExpectedPages(s: Stream, packets: seq<Packet>): seq<Page> {
    seq(|packets| + 2, i requires 0 <= i < |packets| + 2 =>
      ExpectedPage(s, packets, i, if i == |packets| + 1 then END_OF_STREAM else 0))
  }

  function Data(packets: seq<Packet>): seq<bytes> {
    seq(|packets|, i requires 0 <= i < |packets| => packets[i].data)
  }

  lemma PageAlone(payload: bytes, kind: byte, granule: nat, serial: nat, number: nat)
    requires PageFits(payload, granule, serial, number)
    ensures ReadPage(PageBytes(payload, kind, granule, serial, number))
            == Some((PageOf(payload, kind, granule, serial, number), []))
  {
    PageReadsBack(payload, kind, granule, serial, number, []);
    var page := PageBytes(payload, kind, granule, serial, number);
    assert page + [] == page;
  }

  lemma HeadersRead(s: Stream)
    requires s.Valid()
    ensures ReadPages(Headers(s)) == Some(OpenPages(s, []))
  {
    hide ReadPage, PageBytes, OpusHead, OpusTags, PageOf;
    PageAlone(OpusHead(s.channels, s.rate), BEGIN_OF_STREAM, 0, s.serial, 0);
    PageAlone(OpusTags(), 0, 0, s.serial, 1);
    var first := PageBytes(OpusHead(s.channels, s.rate), BEGIN_OF_STREAM, 0, s.serial, 0);
    var one := PageOf(OpusHead(s.channels, s.rate), BEGIN_OF_STREAM, 0, s.serial, 0);
    assert ReadPages([]) == Some([]);
    ReadPagesSnoc([], [], first, one);
    assert [] + first == first && [] + [one] == [one];
    ReadPagesSnoc(first, [one], PageBytes(OpusTags(), 0, 0, s.serial, 1), PageOf(OpusTags(), 0, 0, s.serial, 1));
    assert OpenPages(s, []) == [one] + [PageOf(OpusTags(), 0, 0, s.serial, 1)];
  }

  lemma LastPageReads(s: Stream, packets: seq<Packet>, kind: byte)
    requires s.Valid() && Fits(packets) && packets != []
    ensures ReadPage(LastPage(s, packets, kind)) == Some((ExpectedPage(s, packets, |packets| + 1, kind), []))
  {
    hide ReadPage, PageBytes, PageOf, Samples;
    var last := packets[|packets| - 1];
    PageAlone(last.data, kind, Samples(packets) + PRE_SKIP, s.serial, |packets| + 1);
    assert packets[..|packets|] == packets;
  }

  lemma {:induction false} OpenFileReads(s: Stream, packets: seq<Packet>)
    requires s.Valid() && Fits(packets)
    ensures ReadPages(OpenFile(s, packets)) == Some(OpenPages(s, packets))
    decreases |packets|
  {
    hide ReadPage, ReadPages, LastPage, Headers;
    if packets == [] {
      HeadersRead(s);
    } else {
      FitsPrefix(packets);
      var init := packets[..|packets| - 1];
      OpenFileReads(s, init);
      LastPageReads(s, packets, 0);
      ReadPagesSnoc(OpenFile(s, init), OpenPages(s, init), LastPage(s, packets, 0),
                    ExpectedPage(s, packets, |packets| + 1, 0));
      SamePages(s, packets, 0);
      assert OpenPages(s, packets) == OpenPages(s, init) + [ExpectedPage(s, packets, |packets| + 1, 0)];
    }
  }

  lemma SamePages(s: Stream, packets: seq<Packet>, kind: byte)
    requires packets != []
    ensures forall i :: 0 <= i < |packets| + 1
              ==> ExpectedPage(s, packets[..|packets| - 1], i, kind) == ExpectedPage(s, packets, i, kind)
  {
    hide PageOf, Samples;
    var init := packets[..|packets| - 1];
    forall i | 2 <= i < |packets| + 1
      ensures ExpectedPage(s, init, i, kind) == ExpectedPage(s, packets, i, kind)
    {
      assert init[..i - 1] == packets[..i - 1];
    }
  }

  lemma NothingToClose(s: Stream)
    ensures OpenPages(s, []) == ExpectedPages(s, [])
  {
    assert |OpenPages(s, [])| == 2 && |ExpectedPages(s, [])| == 2;
    assert OpenPages(s, [])[0] == ExpectedPage(s, [], 0, 0);
    assert OpenPages(s, [])[1] == ExpectedPage(s, [], 1, 0);
    assert ExpectedPages(s, [])[0] == ExpectedPage(s, [], 0, 0);
    assert ExpectedPages(s, [])[1] == ExpectedPage(s, [], 1, END_OF_STREAM);
    assert ExpectedPage(s, [], 1, END_OF_STREAM) == ExpectedPage(s, [], 1, 0);
  }

  /** A reader recovers from the finished file exactly the expected pages, every checksum valid. */
  lemma FileReads(s: Stream, packets: seq<Packet>)
    requires s.Valid() && Fits(packets)
    ensures ReadPages(File(s, packets)) == Some(ExpectedPages(s, packets))
  {
    hide ReadPage, ReadPages, LastPage, Headers;
    if packets == [] {
      HeadersRead(s);
      NothingToClose(s);
    } else {
      FitsPrefix(packets);
      var init := packets[..|packets| - 1];
      OpenFileReads(s, init);
      LastPageReads(s, packets, END_OF_STREAM);
      var last := ExpectedPage(s, packets, |packets| + 1, END_OF_STREAM);
      ReadPagesSnoc(OpenFile(s, init), OpenPages(s, init), LastPage(s, packets, END_OF_STREAM), last);
      SamePages(s, packets, 0);
      assert ExpectedPages(s, packets) == OpenPages(s, init) + [last];
    }
  }

  /** The round trip: the two headers and every packet written, in order and complete. */
  lemma PacketsRoundTrip(s: Stream, packets: seq<Packet>)
    requires s.Valid() && Fits(packets)
    ensures ReadPages(File(s, packets)).Some?
    ensures Packets(ReadPages(File(s, packets)).value, [])
            == ([OpusHead(s.channels, s.rate), OpusTags()] + Data(packets), [])
  {
    FileReads(s, packets);
    hide File, ReadPages, OpusHead, OpusTags, Samples, Lacing, Fits, Packets;
    ExpectedPayloads(s, packets);
    PacketsOf(ExpectedPages(s, packets));
  }

  lemma ExpectedAt(s: Stream, packets: seq<Packet>, i: nat)
    requires i < |packets| + 2
    ensures ExpectedPages(s, packets)[i] == ExpectedPage(s, packets, i, if i == |packets| + 1 then END_OF_STREAM else 0)
  {
  }

  lemma ExpectedPayloads(s: Stream, packets: seq<Packet>)
    ensures SinglePackets(ExpectedPages(s, packets))
    ensures Payloads(ExpectedPages(s, packets)) == [OpusHead(s.channels, s.rate), OpusTags()] + Data(packets)
  {
    hide OpusHead, OpusTags, Samples, Lacing;
    var pages := ExpectedPages(s, packets);
    var data := [OpusHead(s.channels, s.rate), OpusTags()] + Data(packets);
    forall i | 0 <= i < |pages| ensures pages[i].lacing == Lacing(|pages[i].payload|) && Payloads(pages)[i] == data[i] {
      ExpectedAt(s, packets, i);
    }
  }

  lemma {:induction false} SamplesMonotone(packets: seq<Packet>, i: nat, j: nat)
    requires i <= j <= |packets|
    ensures Samples(packets[..i]) <= Samples(packets[..j])
    decreases j
  {
    if i < j {
      assert packets[..j][..j - 1] == packets[..j - 1];
      SamplesMonotone(packets, i, j - 1);
    }
  }

  /** The container rules over the pages a reader finds: consecutive numbers of one stream, the begin
      flag on the first page only, the end flag on the last page only and exactly when something was
      written, granules that never go back and end at the pre-skip plus all samples. */
  lemma PageRules(s: Stream, packets: seq<Packet>)
    requires s.Valid() && Fits(packets)
    ensures ReadPages(File(s, packets)).Some?
    ensures var pages := ReadPages(File(s, packets)).value;
            && (forall i :: 0 <= i < |pages| ==> pages[i].number == i && pages[i].serial == s.serial)
            && (forall i :: 0 <= i < |pages| ==> (pages[i].kind == BEGIN_OF_STREAM <==> i == 0))
            && (forall i :: 0 <= i < |pages| ==>
                (pages[i].kind == END_OF_STREAM <==> i == |pages| - 1 && packets != []))
            && (forall i, j :: 0 <= i <= j < |pages| ==> pages[i].granule <= pages[j].granule)
            && |pages| == |packets| + 2
            && (packets != [] ==> pages[|pages| - 1].granule == PRE_SKIP + Samples(packets))
  {
    FileReads(s, packets);
    hide File, ReadPages, OpusHead, OpusTags, Samples, Lacing, Fits, PageOf, ExpectedPages, ExpectedPage;
    var pages := ExpectedPages(s, packets);
    ExpectedRules(s, packets);
  }

  lemma ExpectedRules(s: Stream, packets: seq<Packet>)
    ensures var pages := ExpectedPages(s, packets);
            && (forall i :: 0 <= i < |pages| ==> pages[i].number == i && pages[i].serial == s.serial)
            && (forall i :: 0 <= i < |pages| ==> (pages[i].kind == BEGIN_OF_STREAM <==> i == 0))
            && (forall i :: 0 <= i < |pages| ==>
                (pages[i].kind == END_OF_STREAM <==> i == |pages| - 1 && packets != []))
            && (forall i, j :: 0 <= i <= j < |pages| ==> pages[i].granule <= pages[j].granule)
            && |pages| == |packets| + 2
            && (packets != [] ==> pages[|pages| - 1].granule == PRE_SKIP + Samples(packets))
  {
    hide OpusHead, OpusTags, Samples, Lacing;
    var pages := ExpectedPages(s, packets);
    forall i | 0 <= i < |pages|
      ensures pages[i] == ExpectedPage(s, packets, i, if i == |packets| + 1 then END_OF_STREAM else 0)
    {
      ExpectedAt(s, packets, i);
    }
    forall i, j | 0 <= i <= j < |pages| ensures pages[i].granule <= pages[j].granule {
      if i >= 2 {
        SamplesMonotone(packets, i - 1, j - 1);
      }
    }
    assert packets[..|packets|] == packets;
  }

  // ---- The writer ----

  /** Every packet accepted so far: those on pages and the one held back. */
  function All(flushed: seq<Packet>, pending: Option<Packet>): seq<Packet> {
    if pending.Some? then flushed + [pending.value] else flushed
  }

  class OggOpusWriter {
    const stream: Stream
    var page: nat
    var granule: nat
    var out: bytes
    var pending: Option<Packet>
    /** The packets whose pages are in `out`. */
    ghost var flushed: seq<Packet>
    ghost var closed: bool

    /** The fields agree with the pages of `packets` being out. */
    ghost predicate InStep(packets: seq<Packet>, ended: bool)
      reads this
    {
      && stream.Valid() && Fits(packets)
      && flushed == packets && closed == ended
      && page == |packets| + 2
      && granule == Samples(packets)
      && out == Contents(stream, packets, ended)
    }

    ghost predicate Valid()
      reads this
    {
      && InStep(flushed, closed)
      && (pending.None? ==> closed || flushed == [])
      && (closed ==> pending.None?)
    }

    constructor (rate: nat, channels: byte, serial: nat)
      requires rate < 0x1_0000_0000 && serial < 0x1_0000_0000
      ensures Valid() && All(flushed, pending) == [] && !closed && stream == Stream(serial, channels, rate)
    {
      stream := Stream(serial, channels, rate);
      page, granule, out, pending := 0, 0, [], None;
      flushed, closed := [], false;
      new;
      WriteHeaders();
    }

    /** `_write_headers`. */
    method WriteHeaders()
      requires stream.Valid() && page == 0 && out == []
      modifies this`page, this`out
      ensures page == 2 && out == Headers(stream)
    {
      hide PageBytes, OpusHead, OpusTags;
      var ok, head := BuildPage(OpusHead(stream.channels, stream.rate), BEGIN_OF_STREAM, 0);
      out := out + head;
      ok, head := BuildPage(OpusTags(), 0, 0);
      out := out + head;
    }

    /** `_page_bytes`: fails, as struct.pack does, exactly when a field does not fit. */
    method BuildPage(payload: bytes, kind: byte, position: nat) returns (ok: bool, built: bytes)
      modifies this`page
      ensures ok <==> PageFits(payload, position, stream.serial, old(page))
      ensures ok ==> built == PageBytes(payload, kind, position, stream.serial, old(page)) && page == old(page) + 1
      ensures !ok ==> page == old(page)
    {
      var segments: seq<nat> := [];
      var remaining: int := |payload|;
      while remaining >= 255
        invariant 0 <= remaining
        invariant segments + Lacing(remaining) == Lacing(|payload|)
      {
        assert segments + Lacing(remaining) == (segments + [255]) + Lacing(remaining - 255);
        segments := segments + [255];
        remaining := remaining - 255;
      }
      segments := segments + [remaining];
      LacingFits(|payload|);
      if |segments| > 255 || position >= 0x8000_0000_0000_0000
         || stream.serial >= 0x1_0000_0000 || page >= 0x1_0000_0000 {
        return false, [];
      }
      hide Prefix, Lacing, PackCrc;
      var front := Prefix(kind, position, stream.serial, page);
      var back := [|segments| as byte] + LacingBytes(segments) + payload;
      var crc := Crc.TableCrc32(Words(front + NO_CRC + back));
      built := front + PackCrc(crc) + back;
      page := page + 1;
      ok := true;
    }

    /** `_flush_pending`. When the page cannot be built the packet is lost and its samples stay counted. */
    method FlushPending(last: bool) returns (ok: bool)
      requires Valid()
      modifies this
      ensures pending == None
      ensures ok <==> Fits(All(old(flushed), old(pending)))
      ensures ok ==> InStep(All(old(flushed), old(pending)), if old(pending).Some? then last else old(closed))
      ensures !ok ==> out == old(out) && page == old(page)
    {
      hide Contents, Fits, Samples, PageBytes, PageFits;
      if pending.None? {
        return true;
      }
      var packet := pending.value;
      AppendOne(stream, flushed, packet, last);
      pending := None;
      granule := granule + packet.samples;
      var built;
      ok, built := BuildPage(packet.data, EndFlag(last), granule + PRE_SKIP);
      if ok {
        out := out + built;
        flushed, closed := flushed + [packet], last;
      }
    }

    /** Puts the held packet on a page and holds the new one back instead. */
    method Hold(packet: Packet) returns (ok: bool)
      requires Valid() && !closed
      modifies this
      ensures ok <==> Fits(All(old(flushed), old(pending)))
      ensures ok ==> Valid() && !closed && flushed == All(old(flushed), old(pending)) && pending == Some(packet)
      ensures !ok ==> out == old(out) && pending == None
    {
      hide Contents, Fits, Samples, All;
      ok := FlushPending(false);
      if ok {
        pending := Some(packet);
      }
    }

    /** Adds one packet; an empty one is ignored. */
    method Write(packet: bytes, samples: nat) returns (ok: bool)
      requires Valid() && !closed
      modifies this
      ensures ok <==> packet == [] || Fits(All(old(flushed), old(pending)))
      ensures ok ==> Valid() && !closed
      ensures ok ==> All(flushed, pending)
                     == All(old(flushed), old(pending)) + (if packet == [] then [] else [Packet(packet, samples)])
      ensures !ok ==> out == old(out) && pending == None
    {
      hide Contents, Fits, Samples, InStep, Valid;
      if packet == [] {
        return true;
      }
      ok := Hold(Packet(packet, samples));
    }

    /** Closes the stream: the bytes are the file of everything accepted, when that can be represented. */
    method Finish() returns (ok: bool, data: bytes)
      requires Valid()
      modifies this
      ensures ok <==> Fits(All(old(flushed), old(pending)))
      ensures ok ==>
              data == File(stream, All(old(flushed), old(pending)))
                  && All(flushed, pending) == All(old(flushed), old(pending))
      ensures ok && All(old(flushed), old(pending)) != [] ==> Valid() && closed
    {
      assert flushed == [] ==> Contents(stream, flushed, true) == Contents(stream, flushed, false);
      assert forall packets :: Fits(packets) ==> Contents(stream, packets, true) == File(stream, packets);
      hide Contents, File, Fits, Samples;
      ok := FlushPending(true);
      data := out;
    }
  }

  function EndFlag(last: bool): byte {
    if last then END_OF_STREAM else 0
  }

  /** What the writer holds once the pages of `packets` are out. */
  function Contents(s: Stream, packets: seq<Packet>, closed: bool): bytes
    requires s.Valid() && Fits(packets)
  {
    if closed then File(s, packets) else OpenFile(s, packets)
  }

  lemma SamplesSnoc(packets: seq<Packet>, packet: Packet)
    ensures Samples(packets + [packet]) == Samples(packets) + packet.samples
  {
    var all := packets + [packet];
    assert all[..|all| - 1] == packets;
  }

  lemma FitsOne(packets: seq<Packet>, packet: Packet, serial: nat)
    requires Fits(packets) && serial < 0x1_0000_0000
    ensures Samples(packets + [packet]) == Samples(packets) + packet.samples
    ensures Fits(packets + [packet])
            <==> PageFits(packet.data, Samples(packets + [packet]) + PRE_SKIP, serial, |packets| + 2)
  {
    hide Samples;
    var all := packets + [packet];
    SamplesSnoc(packets, packet);
    assert all[|packets|] == packet;
    assert forall i :: 0 <= i < |packets| ==> all[i] == packets[i];
  }

  /** One more packet on an open file. */
  lemma AppendOne(s: Stream, packets: seq<Packet>, packet: Packet, last: bool)
    requires s.Valid() && Fits(packets)
    ensures var all := packets + [packet];
            && Samples(all) == Samples(packets) + packet.samples
            && (Fits(all) <==> PageFits(packet.data, Samples(all) + PRE_SKIP, s.serial, |packets| + 2))
            && (Fits(all) ==> Contents(s, all, last) == Contents(s, packets, false)
                              + PageBytes(packet.data, EndFlag(last), Samples(all) + PRE_SKIP, s.serial, |packets| + 2))
  {
    hide PageBytes, Headers, Samples, Fits, PageFits;
    FitsOne(packets, packet, s.serial);
    var all := packets + [packet];
    assert all[..|all| - 1] == packets && all[|packets|] == packet;
  }
}
