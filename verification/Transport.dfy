/** Message framing on a byte stream (sipgram/sip/transport.py, `TcpTransport._read_loop`). */
module Transport {
  import opened Options
  import opened Text
  import opened SipMessages
  import SipMessageObjects

  predicate IsBreak(c: char) {
    c == '\r' || c == '\n'
  }

  predicate OnlyBreaks(s: string) {
    forall i :: 0 <= i < |s| ==> IsBreak(s[i])
  }

  /** buf.lstrip(b"\r\n"). */
  function SkipBreaks(s: string): (r: string)
    ensures |r| <= |s| && (r == "" || !IsBreak(r[0]))
  {
    if s != "" && IsBreak(s[0]) then SkipBreaks(s[1..]) else s
  }

  /** The packets that can be cut off a buffer, and what stays in it. */
  function Drain(buf: string): (seq<string>, string)
    decreases |buf|
  {
    var b := SkipBreaks(buf);
    match MessageLength(b)
    case None => ([], b)
    case Some(n) => var (packets, rest) := Drain(b[n..]); ([b[..n]] + packets, rest)
  }

  /** The packets of successive reads, starting from a buffer that waits for more. */
  function Read(buf: string, chunks: seq<string>): (seq<string>, string)
    decreases |chunks|
  {
    if chunks == [] then ([], buf)
    else
      var (first, left) := Drain(buf + chunks[0]);
      var (others, end) := Read(left, chunks[1..]);
      (first + others, end)
  }

  function Concat(chunks: seq<string>): string {
    if chunks == [] then "" else chunks[0] + Concat(chunks[1..])
  }

  // ---- Framing does not depend on how the stream is cut ----

  lemma {:induction false} SkipBreaksExtends(s: string, more: string)
    ensures SkipBreaks(s + more) == if SkipBreaks(s) == "" then SkipBreaks(more) else SkipBreaks(s) + more
    decreases |s|
  {
    if s == "" {
      assert s + more == more;
    } else {
      assert (s + more)[1..] == s[1..] + more;
      if IsBreak(s[0]) {
        SkipBreaksExtends(s[1..], more);
      }
    }
  }

  /** A complete message stays complete, and as long, when more bytes arrive. */
  lemma LengthStable(buf: string, more: string)
    requires MessageLength(buf).Some?
    ensures MessageLength(buf + more) == MessageLength(buf)
  {
    FindStable(buf, more, BLANK_LINE);
    var i := Find(buf, BLANK_LINE).value;
    hide Find, BodyLength, Split;
    assert (buf + more)[..i] == buf[..i];
  }

  lemma {:induction false} DrainRests(buf: string)
    ensures Drain(buf).1 == "" || !IsBreak(Drain(buf).1[0])
    ensures Drain(Drain(buf).1) == ([], Drain(buf).1)
    decreases |buf|
  {
    hide MessageLength;
    var b := SkipBreaks(buf);
    match MessageLength(b) {
      case None =>
        assert SkipBreaks(b) == b;
      case Some(n) =>
        LengthFits(b);
        DrainRests(b[n..]);
    }
  }

  lemma LengthFits(b: string)
    ensures MessageLength(b).Some? ==> 4 <= MessageLength(b).value <= |b|
  {
  }

  lemma SameAfterBreaks(x: string, y: string)
    requires SkipBreaks(x) == SkipBreaks(y)
    ensures Drain(x) == Drain(y)
  {
    hide MessageLength;
  }

  /** Draining twice, with more bytes in between, is draining once. */
  lemma {:induction false} DrainExtends(buf: string, more: string)
    ensures var (packets, rest) := Drain(buf);
            Drain(buf + more) == (packets + Drain(rest + more).0, Drain(rest + more).1)
    decreases |buf|
  {
    var b := SkipBreaks(buf);
    LengthFits(b);
    hide MessageLength;
    SkipBreaksExtends(buf, more);
    match MessageLength(b) {
      case None =>
        if b == "" {
          assert b + more == more;
        } else {
          assert SkipBreaks(b + more) == b + more;
        }
        SameAfterBreaks(buf + more, b + more);
        assert [] + Drain(b + more).0 == Drain(b + more).0;
      case Some(n) =>
        LengthStable(b, more);
        var all := b + more;
        assert all[..n] == b[..n] && all[n..] == b[n..] + more;
        DrainExtends(b[n..], more);
        var (packets, rest) := Drain(b[n..]);
        var after := Drain(rest + more).0;
        assert ([b[..n]] + packets) + after == [b[..n]] + (packets + after);
        assert SkipBreaks(buf + more) == all;
    }
  }

  lemma {:induction false} ReadIsDrain(buf: string, chunks: seq<string>)
    requires Drain(buf) == ([], buf)
    ensures Read(buf, chunks) == Drain(buf + Concat(chunks))
    decreases |chunks|
  {
    hide Drain;
    if chunks == [] {
      assert buf + "" == buf;
    } else {
      var more := Concat(chunks[1..]);
      assert buf + Concat(chunks) == (buf + chunks[0]) + more;
      DrainExtends(buf + chunks[0], more);
      DrainRests(buf + chunks[0]);
      ReadIsDrain(Drain(buf + chunks[0]).1, chunks[1..]);
    }
  }

  /** The packets depend only on the bytes, not on where the reads cut them. */
  lemma ChunkIndependent(chunks: seq<string>, others: seq<string>)
    requires Concat(chunks) == Concat(others)
    ensures Read("", chunks) == Read("", others) == Drain(Concat(chunks))
  {
    NothingBuffered();
    ReadIsDrain("", chunks);
    ReadIsDrain("", others);
    assert "" + Concat(chunks) == Concat(chunks);
  }

  lemma NothingBuffered()
    ensures Drain("") == ([], "")
  {
  }

  // ---- Printed messages come out one by one ----

  /** A message and the keepalive breaks sent before it. */
  datatype Sent = Sent(keepalive: string, message: Message)

  /** The printed message does not begin with a line break. */
  predicate Starts(m: Message) {
    Serialize(m) != "" && !IsBreak(Serialize(m)[0])
  }

  lemma WellFormedStarts(m: Message)
    requires WellFormed(m)
    ensures Starts(m)
  {
    var n := Normalized(m);
    FirstLineIsPlain(n.start);
    var first := FirstLine(n.start);
    assert first != "" && first[0] in first;
    hide FirstLine, Normalized, WellFormed, OneLine;
    assert OneLine(first) ==> !IsBreak(first[0]) by { PlainStart(first); }
    JoinStarts(Lines(n), CRLF);
  }

  lemma PlainStart(s: string)
    requires s != ""
    ensures OneLine(s) ==> !IsBreak(s[0])
  {
  }

  lemma JoinStarts(lines: seq<string>, mark: string)
    requires lines != [] && lines[0] != ""
    ensures Join(lines, mark) != "" && Join(lines, mark)[0] == lines[0][0]
  {
  }

  function Wire(sent: seq<Sent>): string {
    if sent == [] then "" else sent[0].keepalive + Serialize(sent[0].message) + Wire(sent[1..])
  }

  function Packets(sent: seq<Sent>): (packets: seq<string>)
    ensures |packets| == |sent|
  {
    seq(|sent|, i requires 0 <= i < |sent| => Serialize(sent[i].message))
  }

  lemma {:induction false} BreaksSkipped(breaks: string, rest: string)
    requires OnlyBreaks(breaks)
    ensures SkipBreaks(breaks + rest) == SkipBreaks(rest)
    decreases |breaks|
  {
    if breaks == "" {
      assert breaks + rest == rest;
    } else {
      assert (breaks + rest)[1..] == breaks[1..] + rest;
      BreaksSkipped(breaks[1..], rest);
    }
  }

  lemma DrainOne(keepalive: string, m: Message, rest: string)
    requires OnlyBreaks(keepalive) && WellFormed(m)
    ensures Drain(keepalive + Serialize(m) + rest) == ([Serialize(m)] + Drain(rest).0, Drain(rest).1)
  {
    WellFormedStarts(m);
    SerializedLength(m, rest);
    hide Serialize, MessageLength, WellFormed;
    var packet := Serialize(m);
    assert keepalive + packet + rest == keepalive + (packet + rest);
    BreaksSkipped(keepalive, packet + rest);
    var b := packet + rest;
    assert SkipBreaks(b) == b;
    assert b[..|packet|] == packet && b[|packet|..] == rest;
  }

  lemma {:induction false} WireDrains(sent: seq<Sent>, tail: string)
    requires OnlyBreaks(tail)
    requires forall i :: 0 <= i < |sent| ==> OnlyBreaks(sent[i].keepalive) && WellFormed(sent[i].message)
    ensures Drain(Wire(sent) + tail) == (Packets(sent), "")
    decreases |sent|
  {
    hide Serialize, MessageLength, WellFormed, Drain;
    if sent == [] {
      assert Wire(sent) + tail == tail;
      DrainBreaks(tail);
    } else {
      var first := sent[0];
      assert Wire(sent) + tail == first.keepalive + Serialize(first.message) + (Wire(sent[1..]) + tail);
      DrainOne(first.keepalive, first.message, Wire(sent[1..]) + tail);
      WireDrains(sent[1..], tail);
      assert Packets(sent) == [Serialize(first.message)] + Packets(sent[1..]);
    }
  }

  lemma DrainBreaks(breaks: string)
    requires OnlyBreaks(breaks)
    ensures Drain(breaks) == ([], "")
  {
    BreaksSkipped(breaks, "");
    assert breaks + "" == breaks;
  }

  /** What `_dispatch` hands to the stack: packets that do not parse are dropped. */
  function Delivered(packets: seq<string>): seq<Message> {
    if packets == [] then []
    else (match Parse(packets[0]) case None => [] case Some(m) => [m]) + Delivered(packets[1..])
  }

  function Messages(sent: seq<Sent>): (messages: seq<Message>)
    ensures |messages| == |sent|
  {
    seq(|sent|, i requires 0 <= i < |sent| => Normalized(sent[i].message))
  }

  lemma {:induction false} PacketsParse(sent: seq<Sent>)
    requires forall i :: 0 <= i < |sent| ==> WellFormed(sent[i].message)
    ensures Delivered(Packets(sent)) == Messages(sent)
    decreases |sent|
  {
    hide Serialize, WellFormed, Parse, Normalized;
    if sent != [] {
      SerializeParses(sent[0].message);
      PacketsParse(sent[1..]);
      assert Packets(sent)[1..] == Packets(sent[1..]) && Packets(sent)[0] == Serialize(sent[0].message);
      assert Messages(sent) == [Normalized(sent[0].message)] + Messages(sent[1..]);
    }
  }

  /** Well-formed messages sent down one connection, with keepalives between and after them, arrive as
      exactly those messages in order, however the reads cut the stream, and nothing stays behind. */
  lemma StreamRoundTrip(sent: seq<Sent>, tail: string, chunks: seq<string>)
    requires OnlyBreaks(tail) && Concat(chunks) == Wire(sent) + tail
    requires forall i :: 0 <= i < |sent| ==> OnlyBreaks(sent[i].keepalive) && WellFormed(sent[i].message)
    ensures Read("", chunks) == (Packets(sent), "")
    ensures Delivered(Read("", chunks).0) == Messages(sent)
  {
    hide WellFormed, Drain, Read;
    WireDrains(sent, tail);
    ChunkIndependent(chunks, chunks);
    PacketsParse(sent);
  }

  // ---- The connection ----

  class TcpTransport {
    var buf: string
    var dispatched: seq<string>

    constructor ()
      ensures buf == "" && dispatched == []
    {
      buf, dispatched := "", [];
    }

    /** The inner loop of `_read_loop`: cut packets off the buffer until none is complete. */
    method CutPackets()
      modifies this
      ensures dispatched == old(dispatched) + Drain(old(buf)).0
      ensures buf == Drain(old(buf)).1
    {
      hide MessageLength;
      while true
        invariant dispatched + Drain(buf).0 == old(dispatched) + Drain(old(buf)).0
        invariant Drain(buf).1 == Drain(old(buf)).1
        decreases |buf|
      {
        var stripped := SkipBreaks(buf);
        ghost var before := buf;
        if |stripped| != |buf| {
          buf := stripped;
        } else {
          SameLength(buf);
        }
        assert buf == SkipBreaks(before);
        LengthFits(buf);
        var n := SipMessageObjects.FindMessageLength(buf);
        if n.None? {
          assert Drain(before) == ([], buf);
          DrainRests(before);
          break;
        }
        ghost var b := buf;
        var packet;
        packet, buf := buf[..n.value], buf[n.value..];
        assert Drain(before) == ([packet] + Drain(buf).0, Drain(buf).1);
        dispatched := dispatched + [packet];
      }
    }

    /** `_read_loop` over the chunks the socket returns; an empty chunk is the end of the stream. */
    method ReadLoop(chunks: seq<string>)
      requires buf == "" && forall i :: 0 <= i < |chunks| ==> chunks[i] != ""
      modifies this
      ensures dispatched == old(dispatched) + Drain(Concat(chunks)).0
      ensures buf == Drain(Concat(chunks)).1
    {
      hide Drain;
      NothingBuffered();
      assert "" + Concat(chunks) == Concat(chunks) && chunks[0..] == chunks;
      ReadIsDrain("", chunks);
      for i := 0 to |chunks|
        invariant dispatched + Read(buf, chunks[i..]).0 == old(dispatched) + Drain(Concat(chunks)).0
        invariant Read(buf, chunks[i..]).1 == Drain(Concat(chunks)).1
      {
        assert chunks[i..][0] == chunks[i] && chunks[i..][1..] == chunks[i + 1..];
        ghost var parts := Drain(buf + chunks[i]);
        buf := buf + chunks[i];
        CutPackets();
        assert Read(buf, chunks[i + 1..]) == Read(parts.1, chunks[i..][1..]);
      }
      assert chunks[|chunks|..] == [];
    }
  }

  lemma {:induction false} SameLength(s: string)
    ensures |SkipBreaks(s)| == |s| ==> SkipBreaks(s) == s
  {
  }
}
