/** Session descriptions (sipgram/sip/sdp.py:19-155): `Sdp.parse`, `Sdp.build` and that the one reads back
    what the other writes. */
module SdpText {
  import opened Options
  import opened Sequences
  import opened Text

  datatype Codec = Codec(pt: nat, name: string, rate: nat, channels: nat, fmtp: string)

  datatype Sdp = Sdp(originIp: string, connIp: string, port: int, codecs: seq<Codec>, direction: string,
                     ptime: Option<nat>, sessionId: nat, sessionVersion: nat, sessionName: string, proto: string)

  const BLANK := Sdp("0.0.0.0", "0.0.0.0", 0, [], "sendrecv", None, 0, 0, "sipgram", "RTP/AVP")

  datatype Media = Media(name: string, rate: nat, channels: nat)

  const STATIC_PAYLOADS: map<nat, Media> := map[
    0 := Media("PCMU", 8000, 1), 3 := Media("GSM", 8000, 1), 8 := Media("PCMA", 8000, 1), 9 := Media("G722", 8000, 1),
    10 := Media("L16", 44100, 2), 11 := Media("L16", 44100, 1), 13 := Media("CN", 8000, 1),
        18 := Media("G729", 8000, 1)]

  // ---- Text ----

  /** str.split() without an argument. */
  function Words(s: string): seq<string>
    decreases |s|
  {
    if s == "" then []
    else if IsSpace(s[0]) then Words(s[1..])
    else
      var n := WordEnd(s);
      [s[..n]] + Words(s[n..])
  }

  function WordEnd(s: string): (n: nat)
    ensures n <= |s| && (s != "" && !IsSpace(s[0]) ==> n > 0)
  {
    if s == "" || IsSpace(s[0]) then 0 else 1 + WordEnd(s[1..])
  }

  predicate Word(s: string) {
    s != "" && forall i :: 0 <= i < |s| ==> !IsSpace(s[i])
  }

  lemma {:induction false} WordEnds(w: string, rest: string)
    requires (forall i :: 0 <= i < |w| ==> !IsSpace(w[i])) && (rest == "" || IsSpace(rest[0]))
    ensures WordEnd(w + rest) == |w|
    decreases |w|
  {
    if w == "" {
      assert w + rest == rest;
    } else {
      assert (w + rest)[1..] == w[1..] + rest;
      WordEnds(w[1..], rest);
    }
  }

  lemma FirstWord(w: string, rest: string)
    requires Word(w) && (rest == "" || IsSpace(rest[0]))
    ensures Words(w + rest) == [w] + Words(rest)
  {
    WordEnds(w, rest);
    assert (w + rest)[..|w|] == w && (w + rest)[|w|..] == rest;
  }

  lemma NextWord(w: string, rest: string)
    requires Word(w)
    ensures Words(w + " " + rest) == [w] + Words(rest)
  {
    FirstWord(w, " " + rest);
    assert w + " " + rest == w + (" " + rest);
    assert (" " + rest)[1..] == rest;
  }

  lemma LastWord(w: string)
    requires Word(w)
    ensures Words(w) == [w]
  {
    FirstWord(w, "");
    assert w + "" == w;
  }

  /** text.replace("\r\n", "\n").split("\n") */
  function Lines(text: string): seq<string> {
    Split(Join(Split(text, CRLF), "\n"), "\n")
  }

  predicate Plain(s: string) {
    '\r' !in s && '\n' !in s
  }

  lemma {:induction false} JoinBlank(lines: seq<string>, mark: string)
    requires lines != []
    ensures Join(lines + [""], mark) == Join(lines, mark) + mark
    decreases |lines|
  {
    if |lines| == 1 {
      assert (lines + [""])[1..] == [""];
      assert lines[0] + mark + "" == lines[0] + mark;
    } else {
      assert (lines + [""])[1..] == lines[1..] + [""];
      JoinBlank(lines[1..], mark);
      assert lines[0] + mark + (Join(lines[1..], mark) + mark) == (lines[0] + mark + Join(lines[1..], mark)) + mark;
    }
  }

  lemma LinesOfText(lines: seq<string>)
    requires lines != [] && forall i :: 0 <= i < |lines| ==> Plain(lines[i])
    ensures Lines(Join(lines, CRLF) + CRLF) == lines + [""]
  {
    hide Split, Join;
    var all := lines + [""];
    JoinBlank(lines, CRLF);
    forall i | 0 <= i < |all| ensures CRLF[0] !in all[i] && "\n"[0] !in all[i] {
      assert all[i] == (if i < |lines| then lines[i] else "");
    }
    SplitJoin(all, CRLF);
    SplitJoin(all, "\n");
  }

  // ---- Reading ----

  /** What `parse` has gathered. */
  datatype Scan = Scan(sdp: Sdp, sessionConn: string, mediaConn: string, inAudio: bool, seenAudio: bool,
                       order: seq<nat>, rtpmap: map<nat, Media>, fmtp: map<nat, string>)

  const START := Scan(BLANK, "", "", false, false, [], map[], map[])

  function NumberOr(s: string, default: nat): nat {
    if AllDigits(s) then ToNat(s) else default
  }

  function ScanOrigin(s: Scan, value: string): Scan {
    var parts := Words(value);
    if |parts| < 6 then s
    else
      s.(sdp := s.sdp.(sessionId := NumberOr(parts[1], 0), sessionVersion := NumberOr(parts[2], 0),
                       originIp := parts[5]))
  }

  function ScanConnection(s: Scan, value: string): Scan {
    var parts := Words(value);
    var ip := if |parts| >= 3 then parts[2] else "";
    if s.inAudio then s.(mediaConn := ip) else if !s.seenAudio then s.(sessionConn := ip) else s
  }

  function Numbers(parts: seq<string>): seq<nat> {
    if parts == [] then []
    else (if AllDigits(parts[0]) then [ToNat(parts[0])] else []) + Numbers(parts[1..])
  }

  /** None where Python raises. */
  function ScanMedia(s: Scan, value: string): Option<Scan> {
    var parts := Words(value);
    if parts == [] then None
    else if parts[0] == "audio" && !s.seenAudio then
      if |parts| < 3 || ToInt(parts[1]).None? then None
      else
        Some(s.(inAudio := true, seenAudio := true, sdp := s.sdp.(port := ToInt(parts[1]).value, proto := parts[2]),
                order := Numbers(parts[3..])))
    else Some(s.(inAudio := false))
  }

  const DIRECTIONS := ["sendrecv", "sendonly", "recvonly", "inactive"]

  function ScanAttribute(s: Scan, value: string): Scan {
    var name, arg := Before(value, ":"), After(value, ":");
    if name in DIRECTIONS then
      if s.inAudio || !s.seenAudio then s.(sdp := s.sdp.(direction := name)) else s
    else if !s.inAudio then s
    else if name == "rtpmap" then
      var pt, d := Before(arg, " "), Split(After(arg, " "), "/");
      if !AllDigits(pt) then s
      else
        s.(rtpmap := s.rtpmap[ToNat(pt) := Media(d[0], if |d| > 1 then NumberOr(d[1], 8000) else 8000,
                                                 if |d| > 2 then NumberOr(d[2], 1) else 1)])
    else if name == "fmtp" then
      var pt := Before(arg, " ");
      if AllDigits(pt) then s.(fmtp := s.fmtp[ToNat(pt) := Strip(After(arg, " "))]) else s
    else if name == "ptime" && AllDigits(Strip(arg)) then s.(sdp := s.sdp.(ptime := Some(ToNat(Strip(arg)))))
    else s
  }

  function ScanLine(s: Scan, raw: string): Option<Scan> {
    var line := Strip(raw);
    if |line| < 2 || line[1] != '=' then Some(s)
    else
      var value := line[2..];
      if line[0] == 'o' then Some(ScanOrigin(s, value))
      else if line[0] == 'c' then Some(ScanConnection(s, value))
      else if line[0] == 'm' then ScanMedia(s, value)
      else if line[0] == 'a' then Some(ScanAttribute(s, value))
      else Some(s)
  }

  function ScanLines(s: Scan, lines: seq<string>): Option<Scan>
    decreases |lines|
  {
    if lines == [] then Some(s)
    else match ScanLine(s, lines[0])
      case None => None
      case Some(next) => ScanLines(next, lines[1..])
  }

  /** The codecs in the order of the m= line, by rtpmap or by their static number. */
  function Listed(s: Scan, order: seq<nat>): seq<Codec> {
    if order == [] then []
    else
      var pt := order[0];
      var media := if pt in s.rtpmap then Some(s.rtpmap[pt])
          else if pt in STATIC_PAYLOADS then Some(STATIC_PAYLOADS[pt]) else None;
      (match media
       case Some(m) => [Codec(pt, m.name, m.rate, m.channels, if pt in s.fmtp then s.fmtp[pt] else "")]
       case None => [])
      + Listed(s, order[1..])
  }

  function Finish(s: Scan): Sdp {
    s.sdp.(connIp := if s.mediaConn != "" then s.mediaConn else if s.sessionConn != "" then s.sessionConn
           else s.sdp.originIp,
           codecs := Listed(s, s.order))
  }

  /** `Sdp.parse`; None where it raises. */
  function Parse(text: string): Option<Sdp> {
    match ScanLines(START, Lines(text))
    case None => None
    case Some(s) => Some(Finish(s))
  }

  /** `parse` as it loops over the lines, and then over the payload types. */
  method ParseSdp(text: string) returns (sdp: Option<Sdp>)
    ensures sdp == Parse(text)
  {
    hide ScanLines, Listed, Lines;
    var scan := ScanText(Lines(text));
    if scan.None? {
      return None;
    }
    var s := scan.value;
    var codecs := ListCodecs(s);
    sdp := Some(s.sdp.(connIp := if s.mediaConn != "" then s.mediaConn else if s.sessionConn != "" then s.sessionConn
                       else s.sdp.originIp, codecs := codecs));
  }

  method ScanText(lines: seq<string>) returns (scan: Option<Scan>)
    ensures scan == ScanLines(START, lines)
  {
    hide ScanLine;
    var s := START;
    assert lines[0..] == lines;
    for i := 0 to |lines|
      invariant ScanLines(START, lines) == ScanLines(s, lines[i..])
    {
      assert lines[i..][1..] == lines[i + 1..];
      var next := ScanLine(s, lines[i]);
      if next.None? {
        return None;
      }
      s := next.value;
    }
    return Some(s);
  }

  lemma ListedNext(s: Scan, order: seq<nat>, i: nat)
    requires i < |order|
    ensures Listed(s, order[i..])
            == (if order[i] in s.rtpmap || order[i] in STATIC_PAYLOADS then
                  var m := if order[i] in s.rtpmap then s.rtpmap[order[i]] else STATIC_PAYLOADS[order[i]];
                  [Codec(order[i], m.name, m.rate, m.channels, if order[i] in s.fmtp then s.fmtp[order[i]] else "")]
                else []) + Listed(s, order[i + 1..])
  {
    assert order[i..][1..] == order[i + 1..];
  }

  method ListCodecs(s: Scan) returns (codecs: seq<Codec>)
    ensures codecs == Listed(s, s.order)
  {
    hide Listed;
    codecs := [];
    assert s.order[0..] == s.order;
    for i := 0 to |s.order|
      invariant Listed(s, s.order) == codecs + Listed(s, s.order[i..])
    {
      ListedNext(s, s.order, i);
      var pt := s.order[i];
      if pt in s.rtpmap || pt in STATIC_PAYLOADS {
        var m := if pt in s.rtpmap then s.rtpmap[pt] else STATIC_PAYLOADS[pt];
        codecs := codecs + [Codec(pt, m.name, m.rate, m.channels, if pt in s.fmtp then s.fmtp[pt] else "")];
      }
    }
    assert s.order[|s.order|..] == [];
    ListedNone(s);
  }

  lemma ListedNone(s: Scan)
    ensures Listed(s, []) == []
  {
  }

  // ---- Writing ----

  /** SdpCodec.__str__ */
  function Describe(c: Codec): string {
    c.name + "/" + Decimal(c.rate) + (if c.channels > 1 then "/" + Decimal(c.channels) else "")
  }

  function CodecLines(c: Codec): seq<string> {
    ["a=rtpmap:" + Decimal(c.pt) + " " + Describe(c)]
    + if c.fmtp != "" then ["a=fmtp:" + Decimal(c.pt) + " " + c.fmtp] else []
  }

  function AllCodecLines(codecs: seq<Codec>): seq<string> {
    if codecs == [] then [] else CodecLines(codecs[0]) + AllCodecLines(codecs[1..])
  }

  function Types(codecs: seq<Codec>): seq<string> {
    if codecs == [] then [] else [Decimal(codecs[0].pt)] + Types(codecs[1..])
  }

  function Head(s: Sdp): seq<string> {
    ["v=0",
     "o=sipgram " + Decimal(s.sessionId) + " " + Decimal(s.sessionVersion) + " IN IP4 " + s.originIp,
     "s=" + s.sessionName,
     "c=IN IP4 " + s.connIp,
     "t=0 0",
     "m=audio " + FormatInt(s.port) + " " + s.proto + " " + Join(Types(s.codecs), " ")]
  }

  function Tail(s: Sdp): seq<string> {
    (if s.ptime.Some? && s.ptime.value != 0 then ["a=ptime:" + Decimal(s.ptime.value)] else []) + ["a=" + s.direction]
  }

  /** `build` once the session has its numbers. */
  function Build(s: Sdp): string {
    Join(Head(s) + AllCodecLines(s.codecs) + Tail(s), CRLF) + CRLF
  }

  /** The numbers a session gets when it is first built. */
  function Numbered(s: Sdp, now: nat): Sdp {
    var id := if s.sessionId == 0 then now else s.sessionId;
    s.(sessionId := id, sessionVersion := if s.sessionVersion == 0 then id else s.sessionVersion)
  }

  /** `build` as it collects the lines. */
  method BuildSdp(s: Sdp, now: nat) returns (numbered: Sdp, text: string)
    ensures numbered == Numbered(s, now) && text == Build(numbered)
  {
    hide Join, Head, Describe, AllCodecLines;
    numbered := s;
    if numbered.sessionId == 0 {
      numbered := numbered.(sessionId := now);
    }
    if numbered.sessionVersion == 0 {
      numbered := numbered.(sessionVersion := numbered.sessionId);
    }
    var lines := CollectCodecs(Head(numbered), numbered.codecs);
    if numbered.ptime.Some? && numbered.ptime.value != 0 {
      lines := lines + ["a=ptime:" + Decimal(numbered.ptime.value)];
    }
    lines := lines + ["a=" + numbered.direction];
    assert lines == Head(numbered) + AllCodecLines(numbered.codecs) + Tail(numbered);
    text := Join(lines, CRLF) + CRLF;
  }

  method CollectCodecs(head: seq<string>, codecs: seq<Codec>) returns (lines: seq<string>)
    ensures lines == head + AllCodecLines(codecs)
  {
    hide Describe;
    lines := head;
    assert codecs[0..] == codecs;
    for i := 0 to |codecs|
      invariant lines + AllCodecLines(codecs[i..]) == head + AllCodecLines(codecs)
    {
      assert codecs[i..][1..] == codecs[i + 1..];
      var c := codecs[i];
      ghost var before := lines;
      lines := lines + ["a=rtpmap:" + Decimal(c.pt) + " " + Describe(c)];
      if c.fmtp != "" {
        lines := lines + ["a=fmtp:" + Decimal(c.pt) + " " + c.fmtp];
      }
      assert lines == before + CodecLines(c);
      Regroup(before, CodecLines(c), AllCodecLines(codecs[i + 1..]));
    }
  }
}
