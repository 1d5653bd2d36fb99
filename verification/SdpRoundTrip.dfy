/** A session description that was built reads back as itself (sipgram/sip/sdp.py:63-152). */
module SdpRoundTrip {
  import opened Options
  import opened Text
  import opened SdpText

  predicate CodecOk(c: Codec) {
    && '/' !in c.name && Plain(c.name)
    && c.channels >= 1
    && Stripped(c.fmtp) && Plain(c.fmtp)
  }

  function Payloads(codecs: seq<Codec>): (pts: seq<nat>)
    ensures |pts| == |codecs|
  {
    seq(|codecs|, i requires 0 <= i < |codecs| => codecs[i].pt)
  }

  predicate DistinctTypes(codecs: seq<Codec>) {
    forall i, j :: 0 <= i < j < |codecs| ==> codecs[i].pt != codecs[j].pt
  }

  /** What the text can carry: addresses and the protocol are single words, names hold no separator, and every payload
      type is used once. */
  predicate WellFormed(s: Sdp) {
    && Word(s.originIp) && Word(s.connIp) && Word(s.proto)
    && Plain(s.sessionName)
    && s.direction in DIRECTIONS
    && s.ptime != Some(0)
    && DistinctTypes(s.codecs)
    && forall i :: 0 <= i < |s.codecs| ==> CodecOk(s.codecs[i])
  }

  // ---- Lines in general ----

  lemma {:induction false} ScanConcat(s: Scan, a: seq<string>, b: seq<string>)
    ensures ScanLines(s, a + b) == match ScanLines(s, a) case None => None case Some(t) => ScanLines(t, b)
    decreases |a|
  {
    hide ScanLine;
    if a == [] {
      assert a + b == b;
    } else {
      assert (a + b)[1..] == a[1..] + b;
      match ScanLine(s, a[0]) {
        case None =>
        case Some(next) => ScanConcat(next, a[1..], b);
      }
    }
  }

  lemma ScanOne(s: Scan, line: string)
    ensures ScanLines(s, [line]) == ScanLine(s, line)
  {
    hide ScanLine;
    assert [line][1..] == [];
  }

  lemma ScanTwo(s: Scan, first: string, rest: seq<string>)
    ensures ScanLines(s, [first] + rest)
            == match ScanLine(s, first) case None => None case Some(t) => ScanLines(t, rest)
  {
    hide ScanLine;
    assert ([first] + rest)[1..] == rest;
  }

  /** A line that starts with a key and ends without a space is taken as it is. */
  lemma TakeLine(s: Scan, key: string, value: string)
    requires |key| == 2 && key[1] == '=' && !IsSpace(key[0])
    requires value != "" ==> !IsSpace(value[|value| - 1])
    ensures Strip(key + value) == key + value && (key + value)[2..] == value
    ensures key[0] == 'o' ==> ScanLine(s, key + value) == Some(ScanOrigin(s, value))
    ensures key[0] == 'c' ==> ScanLine(s, key + value) == Some(ScanConnection(s, value))
    ensures key[0] == 'm' ==> ScanLine(s, key + value) == ScanMedia(s, value)
    ensures key[0] == 'a' ==> ScanLine(s, key + value) == Some(ScanAttribute(s, value))
    ensures key[0] == 'v' || key[0] == 't' ==> ScanLine(s, key + value) == Some(s)
  {
    hide ScanOrigin, ScanConnection, ScanMedia, ScanAttribute, Strip;
    StrippedIsFixed(key + value);
  }

  /** The session name is skipped, whatever it holds. */
  lemma SkipName(s: Scan, name: string)
    ensures ScanLine(s, "s=" + name) == Some(s)
  {
    hide ScanOrigin, ScanConnection, ScanMedia, ScanAttribute;
    var line := "s=" + name;
    assert StripLeft(line) == line;
    KeepsStart(line, 2);
  }

  lemma {:induction false} KeepsStart(s: string, n: nat)
    requires 0 < n <= |s| && !IsSpace(s[n - 1])
    ensures |StripRight(s)| >= n && StripRight(s)[..n] == s[..n]
    decreases |s|
  {
    if IsSpace(s[|s| - 1]) {
      KeepsStart(s[..|s| - 1], n);
      assert s[..|s| - 1][..n] == s[..n];
    }
  }

  // ---- Words ----

  lemma DecimalWord(n: nat)
    ensures Word(Decimal(n)) && AllDigits(Decimal(n)) && ToNat(Decimal(n)) == n
  {
    DecimalRoundTrip(n);
  }

  lemma IntWord(n: int)
    ensures Word(FormatInt(n)) && ToInt(FormatInt(n)) == Some(n)
  {
    IntRoundTrip(n);
    DecimalWord(if n < 0 then -n else n);
  }

  lemma OriginWords(a: string, b: string, ip: string)
    requires Word(a) && Word(b) && Word(ip)
    ensures Words("sipgram " + a + " " + b + " IN IP4 " + ip) == ["sipgram", a, b, "IN", "IP4", ip]
  {
    hide Words;
    var rest4 := "IP4" + " " + ip;
    var rest3 := "IN" + " " + rest4;
    var rest2 := b + " " + rest3;
    var rest1 := a + " " + rest2;
    LastWord(ip);
    NextWord("IP4", ip);
    NextWord("IN", rest4);
    NextWord(b, rest3);
    NextWord(a, rest2);
    NextWord("sipgram", rest1);
    assert "sipgram " + a + " " + b + " IN IP4 " + ip == "sipgram" + " " + rest1;
  }

  lemma ConnectionWords(ip: string)
    requires Word(ip)
    ensures Words("IN IP4 " + ip) == ["IN", "IP4", ip]
  {
    hide Words;
    var rest := "IP4" + " " + ip;
    LastWord(ip);
    NextWord("IP4", ip);
    NextWord("IN", rest);
    assert "IN IP4 " + ip == "IN" + " " + rest;
  }

  lemma {:induction false} TypeNumbers(codecs: seq<Codec>)
    ensures Numbers(Types(codecs)) == Payloads(codecs)
    decreases |codecs|
  {
    hide Decimal, AllDigits, ToNat;
    if codecs != [] {
      DecimalWord(codecs[0].pt);
      TypeNumbers(codecs[1..]);
      assert Types(codecs)[1..] == Types(codecs[1..]);
    }
  }

  lemma {:induction false} TypeWords(codecs: seq<Codec>)
    ensures Words(Join(Types(codecs), " ")) == Types(codecs)
    ensures codecs == [] <==> Join(Types(codecs), " ") == ""
    ensures codecs != [] ==> Join(Types(codecs), " ")[|Join(Types(codecs), " ")| - 1] != ' '
    ensures codecs != [] ==> !IsSpace(Join(Types(codecs), " ")[|Join(Types(codecs), " ")| - 1])
    decreases |codecs|
  {
    if codecs != [] {
      DecimalWord(codecs[0].pt);
      TypeWords(codecs[1..]);
      var first := Decimal(codecs[0].pt);
      assert Types(codecs)[1..] == Types(codecs[1..]);
      if |codecs| == 1 {
        assert Types(codecs[1..]) == [];
        LastWord(first);
      } else {
        NextWord(first, Join(Types(codecs[1..]), " "));
      }
    }
  }

  lemma Respaced(a: string, b: string, c: string)
    ensures a + " " + b + " " + c == a + " " + (b + " " + c)
  {
  }

  lemma BareMediaWords(port: int, proto: string)
    requires Word(proto)
    ensures Words("audio " + FormatInt(port) + " " + proto) == ["audio", FormatInt(port), proto]
  {
    hide Words, Join, FormatInt;
    var rest := FormatInt(port) + " " + proto;
    IntWord(port);
    LastWord(proto);
    NextWord(FormatInt(port), proto);
    NextWord("audio", rest);
    assert "audio " == "audio" + " ";
    Respaced("audio", FormatInt(port), proto);
  }

  lemma MediaWords(port: int, proto: string, codecs: seq<Codec>)
    requires Word(proto)
    ensures Words("audio " + FormatInt(port) + " " + proto + " " + Join(Types(codecs), " "))
            == ["audio", FormatInt(port), proto] + Types(codecs)
  {
    hide Words, Join, FormatInt, Types;
    var types := Join(Types(codecs), " ");
    var rest2 := proto + " " + types;
    var rest1 := FormatInt(port) + " " + rest2;
    IntWord(port);
    TypeWords(codecs);
    NextWord(proto, types);
    NextWord(FormatInt(port), rest2);
    NextWord("audio", rest1);
    assert "audio " == "audio" + " ";
    Respaced("audio", FormatInt(port), proto);
    Respaced(FormatInt(port), proto, types);
    Respaced("audio", FormatInt(port) + " " + proto, types);
  }

  // ---- The head ----

  function AfterMedia(s: Sdp): Scan {
    Scan(BLANK.(sessionId := s.sessionId, sessionVersion := s.sessionVersion, originIp := s.originIp, port := s.port,
                proto := s.proto),
         s.connIp, "", true, true, Payloads(s.codecs), map[], map[])
  }

  lemma ScanOriginLine(s: Sdp)
    requires Word(s.originIp)
    ensures ScanLine(START,
                     "o=sipgram " + Decimal(s.sessionId) + " " + Decimal(s.sessionVersion) + " IN IP4 " + s.originIp)
            == Some(START.(sdp := BLANK.(sessionId := s.sessionId, sessionVersion := s.sessionVersion,
                                         originIp := s.originIp)))
  {
    hide Words, ScanLine, Strip, ToNat, AllDigits;
    var value := "sipgram " + Decimal(s.sessionId) + " " + Decimal(s.sessionVersion) + " IN IP4 " + s.originIp;
    assert "o=sipgram " + Decimal(s.sessionId) + " " + Decimal(s.sessionVersion) + " IN IP4 " + s.originIp
        == "o=" + value;
    assert value[|value| - 1] == s.originIp[|s.originIp| - 1];
    DecimalWord(s.sessionId);
    DecimalWord(s.sessionVersion);
    OriginWords(Decimal(s.sessionId), Decimal(s.sessionVersion), s.originIp);
    TakeLine(START, "o=", value);
  }

  lemma ScanConnectionLine(t: Scan, ip: string)
    requires Word(ip) && !t.inAudio && !t.seenAudio
    ensures ScanLine(t, "c=IN IP4 " + ip) == Some(t.(sessionConn := ip))
  {
    hide Words, ScanLine, Strip;
    var value := "IN IP4 " + ip;
    assert "c=IN IP4 " + ip == "c=" + value;
    assert value[|value| - 1] == ip[|ip| - 1];
    ConnectionWords(ip);
    TakeLine(t, "c=", value);
  }

  lemma ScanMediaLine(t: Scan, port: int, proto: string, codecs: seq<Codec>)
    requires Word(proto) && !t.seenAudio
    ensures ScanLine(t, "m=audio " + FormatInt(port) + " " + proto + " " + Join(Types(codecs), " "))
            == Some(t.(inAudio := true, seenAudio := true, sdp := t.sdp.(port := port, proto := proto),
                       order := Payloads(codecs)))
  {
    hide Words, ScanLine, Strip, Join, ToInt, FormatInt, Numbers;
    var types := Join(Types(codecs), " ");
    var start := "audio " + FormatInt(port) + " " + proto;
    var value := start + " " + types;
    assert "m=audio " + FormatInt(port) + " " + proto + " " + types == "m=" + value;
    TypeWords(codecs);
    TypeNumbers(codecs);
    IntWord(port);
    MediaWords(port, proto, codecs);
    assert (["audio", FormatInt(port), proto] + Types(codecs))[3..] == Types(codecs);
    assert start[|start| - 1] == proto[|proto| - 1];
    if codecs == [] {
      ScanNoTypes(t, port, proto);
    } else {
      assert value[|value| - 1] == types[|types| - 1];
      TakeLine(t, "m=", value);
    }
  }

  /** Without codecs the line ends with a space, which does not matter. */
  lemma ScanNoTypes(t: Scan, port: int, proto: string)
    requires Word(proto) && !t.seenAudio
    ensures ScanLine(t, "m=audio " + FormatInt(port) + " " + proto + " " + Join(Types([]), " "))
            == Some(t.(inAudio := true, seenAudio := true, sdp := t.sdp.(port := port, proto := proto),
                       order := Payloads([])))
  {
    hide Words, ScanLine, Strip, ToInt, FormatInt;
    var start := "audio " + FormatInt(port) + " " + proto;
    NoTypes();
    assert Join(Types([]), " ") == "";
    IntWord(port);
    BareMediaWords(port, proto);
    assert ["audio", FormatInt(port), proto][3..] == [];
    assert start[|start| - 1] == proto[|proto| - 1];
    TakeLine(t, "m=", start);
    var line, spaced := "m=" + start, "m=audio " + FormatInt(port) + " " + proto + " " + "";
    assert spaced == line + " ";
    TrailingSpace(t, line, spaced);
  }

  lemma NoTypes()
    ensures Types([]) == [] && Numbers([]) == [] && Payloads([]) == []
  {
  }

  lemma TrailingSpace(t: Scan, line: string, spaced: string)
    requires line != "" && spaced == line + " " && !IsSpace(line[0]) && !IsSpace(line[|line| - 1])
    ensures ScanLine(t, spaced) == ScanLine(t, line)
  {
    hide ScanOrigin, ScanConnection, ScanMedia, ScanAttribute;
    assert StripLeft(spaced) == spaced && spaced[..|spaced| - 1] == line;
    assert StripRight(spaced) == StripRight(line) == line;
    StrippedIsFixed(line);
  }

  lemma ScanHead(s: Sdp)
    requires WellFormed(s)
    ensures ScanLines(START, Head(s)) == Some(AfterMedia(s))
  {
    hide ScanLine, ScanLines, Words, Strip, Join, FormatInt, Decimal, Payloads;
    var h := Head(s);
    var origin := START.(sdp := BLANK.(sessionId := s.sessionId, sessionVersion := s.sessionVersion,
                                       originIp := s.originIp));
    var connected := origin.(sessionConn := s.connIp);
    assert h == [h[0]] + ([h[1]] + ([h[2]] + ([h[3]] + ([h[4]] + [h[5]]))));
    assert h[0] == "v=" + "0" && h[4] == "t=" + "0 0";
    TakeLine(START, "v=", "0");
    ScanOriginLine(s);
    SkipName(origin, s.sessionName);
    ScanConnectionLine(origin, s.connIp);
    TakeLine(connected, "t=", "0 0");
    ScanMediaLine(connected, s.port, s.proto, s.codecs);
    ScanTwo(START, h[0], [h[1]] + ([h[2]] + ([h[3]] + ([h[4]] + [h[5]]))));
    ScanTwo(START, h[1], [h[2]] + ([h[3]] + ([h[4]] + [h[5]])));
    ScanTwo(origin, h[2], [h[3]] + ([h[4]] + [h[5]]));
    ScanTwo(origin, h[3], [h[4]] + [h[5]]);
    ScanTwo(connected, h[4], [h[5]]);
    ScanOne(connected, h[5]);
  }

  // ---- The codecs ----

  function MediaOf(c: Codec): Media {
    Media(c.name, c.rate, c.channels)
  }

  function WithCodec(t: Scan, c: Codec): Scan {
    t.(rtpmap := t.rtpmap[c.pt := MediaOf(c)], fmtp := if c.fmtp != "" then t.fmtp[c.pt := c.fmtp] else t.fmtp)
  }

  function WithCodecs(t: Scan, codecs: seq<Codec>): Scan
    decreases |codecs|
  {
    if codecs == [] then t else WithCodecs(WithCodec(t, codecs[0]), codecs[1..])
  }

  lemma DescribedParts(c: Codec)
    requires CodecOk(c)
    ensures Split(Describe(c), "/")
            == [c.name, Decimal(c.rate)] + (if c.channels > 1 then [Decimal(c.channels)] else [])
  {
    hide Split, Decimal;
    var parts := [c.name, Decimal(c.rate)] + (if c.channels > 1 then [Decimal(c.channels)] else []);
    DigitsAreStripped(Decimal(c.rate));
    DigitsAreStripped(Decimal(c.channels));
    JoinedParts(c);
    SplitJoin(parts, "/");
  }

  lemma JoinedParts(c: Codec)
    ensures Join([c.name, Decimal(c.rate)] + (if c.channels > 1 then [Decimal(c.channels)] else []), "/") == Describe(c)
  {
    hide Decimal;
    var rate, channels := Decimal(c.rate), Decimal(c.channels);
    assert Join([channels], "/") == channels && Join([rate], "/") == rate;
    if c.channels > 1 {
      assert [c.name, rate] + [channels] == [c.name, rate, channels];
      assert [c.name, rate, channels][1..] == [rate, channels] && [rate, channels][1..] == [channels];
      assert Join([rate, channels], "/") == rate + "/" + channels;
      assert c.name + "/" + (rate + "/" + channels) == c.name + "/" + rate + ("/" + channels);
    } else {
      assert [c.name, rate] + [] == [c.name, rate] && [c.name, rate][1..] == [rate];
      assert c.name + "/" + rate + "" == c.name + "/" + rate;
    }
  }

  lemma ScanRtpmap(t: Scan, c: Codec)
    requires CodecOk(c) && t.inAudio
    ensures ScanLine(t, "a=rtpmap:" + Decimal(c.pt) + " " + Describe(c))
            == Some(t.(rtpmap := t.rtpmap[c.pt := MediaOf(c)]))
  {
    hide ScanLine, Strip, Split, Find, Before, After, Describe, AllDigits, ToNat;
    var pt, desc := Decimal(c.pt), Describe(c);
    var arg := pt + " " + desc;
    var value := "rtpmap" + ":" + arg;
    assert "a=rtpmap:" + pt + " " + desc == "a=" + value;
    DecimalWord(c.pt);
    DecimalWord(c.rate);
    DecimalWord(c.channels);
    PartitionAt("rtpmap", ":", arg);
    NoSpaceInDigits(pt);
    PartitionAt(pt, " ", desc);
    DescribedParts(c);
    DescribedEnd(c);
    assert value[|value| - 1] == desc[|desc| - 1];
    TakeLine(t, "a=", value);
  }

  lemma NoSpaceInDigits(s: string)
    requires AllDigits(s)
    ensures ' ' !in s
  {
  }

  lemma DescribedEnd(c: Codec)
    ensures Describe(c) != "" && !IsSpace(Describe(c)[|Describe(c)| - 1])
  {
    DecimalWord(c.rate);
    DecimalWord(c.channels);
  }

  lemma ScanFmtp(t: Scan, c: Codec)
    requires CodecOk(c) && t.inAudio && c.fmtp != ""
    ensures ScanLine(t, "a=fmtp:" + Decimal(c.pt) + " " + c.fmtp) == Some(t.(fmtp := t.fmtp[c.pt := c.fmtp]))
  {
    hide ScanLine, Split, Find, Before, After, AllDigits, ToNat, Strip;
    var pt := Decimal(c.pt);
    var arg := pt + " " + c.fmtp;
    var value := "fmtp" + ":" + arg;
    assert "a=fmtp:" + pt + " " + c.fmtp == "a=" + value;
    DecimalWord(c.pt);
    PartitionAt("fmtp", ":", arg);
    NoSpaceInDigits(pt);
    PartitionAt(pt, " ", c.fmtp);
    StrippedIsFixed(c.fmtp);
    assert value[|value| - 1] == c.fmtp[|c.fmtp| - 1];
    TakeLine(t, "a=", value);
  }

  lemma ScanCodec(t: Scan, c: Codec)
    requires CodecOk(c) && t.inAudio
    ensures ScanLines(t, CodecLines(c)) == Some(WithCodec(t, c))
  {
    hide ScanLine, Describe, Decimal, Strip;
    var first := "a=rtpmap:" + Decimal(c.pt) + " " + Describe(c);
    ScanRtpmap(t, c);
    if c.fmtp != "" {
      ScanFmtp(t.(rtpmap := t.rtpmap[c.pt := MediaOf(c)]), c);
      ScanTwo(t, first, ["a=fmtp:" + Decimal(c.pt) + " " + c.fmtp]);
      ScanOne(t.(rtpmap := t.rtpmap[c.pt := MediaOf(c)]), "a=fmtp:" + Decimal(c.pt) + " " + c.fmtp);
    } else {
      assert CodecLines(c) == [first];
      ScanOne(t, first);
    }
  }

  lemma {:induction false} ScanCodecs(t: Scan, codecs: seq<Codec>)
    requires t.inAudio && forall i :: 0 <= i < |codecs| ==> CodecOk(codecs[i])
    ensures ScanLines(t, AllCodecLines(codecs)) == Some(WithCodecs(t, codecs))
    decreases |codecs|
  {
    hide ScanLine, CodecLines, CodecOk;
    if codecs != [] {
      ScanCodec(t, codecs[0]);
      ScanConcat(t, CodecLines(codecs[0]), AllCodecLines(codecs[1..]));
      ScanCodecs(WithCodec(t, codecs[0]), codecs[1..]);
    }
  }

  /** What the maps say of a payload type after all codec lines. */
  lemma {:induction false} MapsOf(t: Scan, codecs: seq<Codec>, i: nat)
    requires DistinctTypes(codecs) && i < |codecs| && codecs[i].pt !in t.fmtp
    ensures var u := WithCodecs(t, codecs); var c := codecs[i];
            && c.pt in u.rtpmap && u.rtpmap[c.pt] == MediaOf(c)
            && (if c.pt in u.fmtp then u.fmtp[c.pt] else "") == c.fmtp
    decreases |codecs|
  {
    if i == 0 {
      MapsStay(WithCodec(t, codecs[0]), codecs[1..], codecs[0].pt);
    } else {
      MapsOf(WithCodec(t, codecs[0]), codecs[1..], i - 1);
    }
  }

  lemma {:induction false} MapsStay(t: Scan, codecs: seq<Codec>, pt: nat)
    requires forall i :: 0 <= i < |codecs| ==> codecs[i].pt != pt
    ensures var u := WithCodecs(t, codecs);
            && (pt in u.rtpmap <==> pt in t.rtpmap) && (pt in t.rtpmap ==> u.rtpmap[pt] == t.rtpmap[pt])
            && (pt in u.fmtp <==> pt in t.fmtp) && (pt in t.fmtp ==> u.fmtp[pt] == t.fmtp[pt])
    decreases |codecs|
  {
    if codecs != [] {
      MapsStay(WithCodec(t, codecs[0]), codecs[1..], pt);
    }
  }

  lemma {:induction false} WithCodecsFields(t: Scan, codecs: seq<Codec>)
    ensures var u := WithCodecs(t, codecs);
            u == t.(rtpmap := u.rtpmap, fmtp := u.fmtp)
    decreases |codecs|
  {
    if codecs != [] {
      WithCodecsFields(WithCodec(t, codecs[0]), codecs[1..]);
    }
  }

  lemma {:induction false} ListedBack(t: Scan, codecs: seq<Codec>, from: nat)
    requires DistinctTypes(codecs) && from <= |codecs| && t.fmtp == map[]
    ensures Listed(WithCodecs(t, codecs), Payloads(codecs)[from..]) == codecs[from..]
    decreases |codecs| - from
  {
    hide WithCodecs, DistinctTypes;
    if from < |codecs| {
      var order := Payloads(codecs)[from..];
      assert order[0] == codecs[from].pt && order[1..] == Payloads(codecs)[from + 1..];
      MapsOf(t, codecs, from);
      ListedBack(t, codecs, from + 1);
      var c := codecs[from];
      assert codecs[from..] == [c] + codecs[from + 1..];
    }
  }

  // ---- The tail ----

  lemma ScanPtime(t: Scan, n: nat)
    requires t.inAudio
    ensures ScanLine(t, "a=ptime:" + Decimal(n)) == Some(t.(sdp := t.sdp.(ptime := Some(n))))
  {
    hide ScanLine, Split, Find, Before, After, ToNat, Strip;
    var value := "ptime" + ":" + Decimal(n);
    assert "a=ptime:" + Decimal(n) == "a=" + value;
    DecimalWord(n);
    PartitionAt("ptime", ":", Decimal(n));
    StrippedIsFixed(Decimal(n));
    assert value[|value| - 1] == Decimal(n)[|Decimal(n)| - 1];
    TakeLine(t, "a=", value);
  }

  lemma ScanDirection(t: Scan, direction: string)
    requires t.inAudio && direction in DIRECTIONS
    ensures ScanLine(t, "a=" + direction) == Some(t.(sdp := t.sdp.(direction := direction)))
  {
    hide ScanLine, Split, Find, After, Strip;
    DirectionWord(direction);
    TakeLine(t, "a=", direction);
  }

  predicate Letters(s: string) {
    s != "" && forall i :: 0 <= i < |s| ==> 'a' <= s[i] <= 'z'
  }

  lemma DirectionLetters(direction: string)
    requires direction in DIRECTIONS
    ensures Letters(direction)
  {
  }

  lemma LettersWord(s: string)
    requires Letters(s)
    ensures ':' !in s && Word(s) && Plain(s)
  {
  }

  lemma DirectionWord(direction: string)
    requires direction in DIRECTIONS
    ensures Before(direction, ":") == direction && Word(direction) && Plain(direction)
  {
    hide Find, Letters, Word, Plain;
    DirectionLetters(direction);
    LettersWord(direction);
    LacksChar(direction, ":");
    FindNone(direction, ":");
  }

  lemma ScanTail(t: Scan, s: Sdp)
    requires t.inAudio && s.direction in DIRECTIONS && s.ptime != Some(0) && t.sdp.ptime == None
    ensures ScanLines(t, Tail(s)) == Some(t.(sdp := t.sdp.(ptime := s.ptime, direction := s.direction)))
  {
    hide ScanLine, Decimal;
    if s.ptime.Some? {
      var u := t.(sdp := t.sdp.(ptime := s.ptime));
      ScanPtime(t, s.ptime.value);
      ScanDirection(u, s.direction);
      ScanTwo(t, "a=ptime:" + Decimal(s.ptime.value), ["a=" + s.direction]);
      ScanOne(u, "a=" + s.direction);
    } else {
      ScanDirection(t, s.direction);
      assert Tail(s) == ["a=" + s.direction];
      ScanOne(t, "a=" + s.direction);
    }
  }

  // ---- The whole ----

  lemma PlainJoin(a: string, b: string)
    requires Plain(a) && Plain(b)
    ensures Plain(a + b)
  {
  }

  lemma WordIsPlain(w: string)
    requires Word(w)
    ensures Plain(w)
  {
  }

  lemma DecimalPlain(n: nat)
    ensures Plain(Decimal(n))
  {
    DecimalWord(n);
    WordIsPlain(Decimal(n));
  }

  lemma {:induction false} TypesPlain(codecs: seq<Codec>)
    ensures Plain(Join(Types(codecs), " "))
    decreases |codecs|
  {
    hide Decimal, Plain;
    NothingPlain();
    if codecs != [] {
      TypesPlain(codecs[1..]);
      DecimalPlain(codecs[0].pt);
      assert Types(codecs)[1..] == Types(codecs[1..]);
      PlainJoin(Decimal(codecs[0].pt), " ");
      PlainJoin(Decimal(codecs[0].pt) + " ", Join(Types(codecs[1..]), " "));
    }
  }

  lemma NothingPlain()
    ensures Plain("") && Plain(" ") && Plain("/")
  {
  }

  lemma HeadPlain(s: Sdp, i: nat)
    requires WellFormed(s) && i < |Head(s)|
    ensures Plain(Head(s)[i])
  {
    hide Decimal, FormatInt, Join, Types, DistinctTypes, CodecOk;
    DecimalPlain(s.sessionId);
    DecimalPlain(s.sessionVersion);
    IntWord(s.port);
    TypesPlain(s.codecs);
  }

  lemma CodecPlain(c: Codec, i: nat)
    requires CodecOk(c) && i < |CodecLines(c)|
    ensures Plain(CodecLines(c)[i])
  {
    hide Decimal;
    DecimalPlain(c.pt);
    DecimalPlain(c.rate);
    DecimalPlain(c.channels);
  }

  lemma {:induction false} CodecsPlain(codecs: seq<Codec>, i: nat)
    requires (forall k :: 0 <= k < |codecs| ==> CodecOk(codecs[k])) && i < |AllCodecLines(codecs)|
    ensures Plain(AllCodecLines(codecs)[i])
    decreases |codecs|
  {
    hide Plain, CodecOk, CodecLines;
    if i < |CodecLines(codecs[0])| {
      CodecPlain(codecs[0], i);
    } else {
      CodecsPlain(codecs[1..], i - |CodecLines(codecs[0])|);
    }
  }

  lemma TailPlain(s: Sdp, i: nat)
    requires WellFormed(s) && i < |Tail(s)|
    ensures Plain(Tail(s)[i])
  {
    hide Decimal, DistinctTypes, CodecOk, Plain, Word;
    DirectionWord(s.direction);
    LiteralsPlain();
    PlainJoin("a=", s.direction);
    if s.ptime.Some? {
      DecimalPlain(s.ptime.value);
      PlainJoin("a=ptime:", Decimal(s.ptime.value));
    }
  }

  lemma LiteralsPlain()
    ensures Plain("a=") && Plain("a=ptime:")
  {
  }

  function AllLines(s: Sdp): seq<string> {
    Head(s) + AllCodecLines(s.codecs) + Tail(s)
  }

  lemma AllPlain(s: Sdp)
    requires WellFormed(s)
    ensures forall i :: 0 <= i < |AllLines(s)| ==> Plain(AllLines(s)[i])
  {
    hide Plain, Head, AllCodecLines, Tail, CodecOk;
    var h, c, t := Head(s), AllCodecLines(s.codecs), Tail(s);
    forall i | 0 <= i < |AllLines(s)| ensures Plain(AllLines(s)[i]) {
      if i < |h| {
        HeadPlain(s, i);
      } else if i < |h| + |c| {
        CodecsPlain(s.codecs, i - |h|);
      } else {
        TailPlain(s, i - |h| - |c|);
      }
    }
  }

  lemma ScanAll(s: Sdp)
    requires WellFormed(s)
    ensures ScanLines(START, AllLines(s) + [""])
            == Some(WithCodecs(AfterMedia(s),
                               s.codecs).(sdp := AfterMedia(s).sdp.(ptime := s.ptime, direction := s.direction)))
  {
    hide ScanLines, ScanLine, Head, AllCodecLines, Tail, WithCodecs, CodecOk;
    var t := AfterMedia(s);
    var u := WithCodecs(t, s.codecs);
    ScanHead(s);
    ScanCodecs(t, s.codecs);
    WithCodecsFields(t, s.codecs);
    ScanTail(u, s);
    ScanConcat(START, Head(s), AllCodecLines(s.codecs));
    ScanConcat(START, Head(s) + AllCodecLines(s.codecs), Tail(s));
    ScanConcat(START, AllLines(s), [""]);
    var v := u.(sdp := t.sdp.(ptime := s.ptime, direction := s.direction));
    ScanOne(v, "");
    EmptyLine(v);
  }

  lemma EmptyLine(s: Scan)
    ensures ScanLine(s, "") == Some(s)
  {
  }

  /** What a reader learns: everything but the name of the session. */
  function Carried(s: Sdp): Sdp {
    s.(sessionName := BLANK.sessionName)
  }

  /** Every well-formed description reads back from its text as itself, but for the session's name. */
  lemma ParseBuild(s: Sdp)
    requires WellFormed(s)
    ensures Parse(Build(s)) == Some(Carried(s))
  {
    hide ScanLines, Lines, Join, Head, AllCodecLines, Tail, WithCodecs, CodecOk, Listed, DistinctTypes, Payloads, Plain;
    AllPlain(s);
    HeadNonEmpty(s);
    LinesOfText(AllLines(s));
    ScanAll(s);
    var t := AfterMedia(s);
    ListedBack(t, s.codecs, 0);
    assert Payloads(s.codecs)[0..] == Payloads(s.codecs) && s.codecs[0..] == s.codecs;
    WithCodecsFields(t, s.codecs);
    var u := WithCodecs(t, s.codecs);
    ListedSame(u, u.(sdp := t.sdp.(ptime := s.ptime, direction := s.direction)), Payloads(s.codecs));
  }

  lemma HeadNonEmpty(s: Sdp)
    ensures AllLines(s) != [] && Build(s) == Join(AllLines(s), CRLF) + CRLF
  {
    hide Join, AllCodecLines, Tail;
  }

  lemma {:induction false} ListedSame(a: Scan, b: Scan, order: seq<nat>)
    requires a.rtpmap == b.rtpmap && a.fmtp == b.fmtp
    ensures Listed(a, order) == Listed(b, order)
    decreases |order|
  {
    if order != [] {
      ListedSame(a, b, order[1..]);
    }
  }
}
