/** SIP messages (sipgram/sip/message.py): parsing, printing and list headers. */
module SipMessages {
  import opened Options
  import opened Text
  import opened HeaderNames

  const BLANK_LINE := "\r\n\r\n"
  const CONTENT_LENGTH := "Content-Length"

  datatype StartLine = Request(verb: string, uri: string) | Response(status: int, reason: string)

  datatype Header = Header(name: string, value: string)

  datatype Message = Message(start: StartLine, headers: seq<Header>, body: string)

  // ---- Header lists ----

  function Without(headers: seq<Header>, name: string): (r: seq<Header>)
    ensures forall i :: 0 <= i < |r| ==> r[i].name != name && r[i] in headers
  {
    if headers == [] then []
    else (if headers[0].name == name then [] else [headers[0]]) + Without(headers[1..], name)
  }

  function Get(headers: seq<Header>, name: string): Option<string> {
    if headers == [] then None
    else if headers[0].name == name then Some(headers[0].value)
    else Get(headers[1..], name)
  }

  // ---- Printing ----

  function FirstLine(start: StartLine): string {
    match start
    case Request(verb, uri) => verb + " " + uri + " SIP/2.0"
    case Response(status, reason) => "SIP/2.0 " + FormatInt(status) + " " + reason
  }

  function HeaderLine(h: Header): string {
    h.name + ": " + h.value
  }

  function HeaderLines(headers: seq<Header>): (lines: seq<string>)
    ensures |lines| == |headers|
  {
    seq(|headers|, i requires 0 <= i < |headers| => HeaderLine(headers[i]))
  }

  /** What `serialize` leaves in the header list: one Content-Length, last and true. */
  function Normalized(m: Message): Message {
    m.(headers := Without(m.headers, CONTENT_LENGTH) + [Header(CONTENT_LENGTH, Decimal(|m.body|))])
  }

  function Lines(m: Message): seq<string> {
    [FirstLine(m.start)] + HeaderLines(m.headers)
  }

  function Serialize(m: Message): string {
    Join(Lines(Normalized(m)), CRLF) + BLANK_LINE + m.body
  }

  // ---- Parsing ----

  predicate Folded(line: string) {
    line != "" && (line[0] == ' ' || line[0] == '\t')
  }

  /** Continuation lines join the line before them. */
  function Unfold(raw: seq<string>): (lines: seq<string>)
    ensures raw != [] ==> lines != []
    decreases |raw|
  {
    if raw == [] then []
    else
      var before, line := Unfold(raw[..|raw| - 1]), raw[|raw| - 1];
      if Folded(line) && before != [] then before[..|before| - 1] + [before[|before| - 1] + " " + Strip(line)]
      else before + [line]
  }

  function StartsWith(s: string, prefix: string): bool {
    |s| >= |prefix| && s[..|prefix|] == prefix
  }

  function ParseStart(first: string): Option<StartLine> {
    if StartsWith(Upper(first), "SIP/2.0 ") then
      var rest := After(first, " ");
      match ToInt(Before(rest, " "))
      case None => None
      case Some(status) => Some(Response(status, After(rest, " ")))
    else
      var parts := Split(first, " ");
      if |parts| < 3 || !StartsWith(Upper(parts[2]), "SIP/2.0") then None
      else Some(Request(Upper(parts[0]), parts[1]))
  }

  /** A line without a colon is skipped. */
  function ParseHeader(line: string): seq<Header> {
    if ':' in line then [Header(CanonicalHeader(Before(line, ":")), Strip(After(line, ":")))] else []
  }

  function ParseHeaders(lines: seq<string>): seq<Header>
    decreases |lines|
  {
    if lines == [] then [] else ParseHeaders(lines[..|lines| - 1]) + ParseHeader(lines[|lines| - 1])
  }

  function Min(a: nat, b: nat): nat {
    if a < b then a else b
  }

  function Body(headers: seq<Header>, rest: string): string {
    match Get(headers, CONTENT_LENGTH)
    case None => rest
    case Some(length) => if AllDigits(Strip(length)) then rest[..Min(ToNat(Strip(length)), |rest|)] else rest
  }

  /** None where the source raises ValueError. */
  function Parse(data: string): Option<Message> {
    var raw := Split(Before(data, BLANK_LINE), CRLF);
    if Strip(raw[0]) == "" then None
    else
      var lines := Unfold(raw);
      match ParseStart(lines[0])
      case None => None
      case Some(start) =>
        var headers := ParseHeaders(lines[1..]);
        Some(Message(start, headers, Body(headers, After(data, BLANK_LINE))))
  }

  // ---- Framing ----

  /** The value of the first Content-Length line, else 0. */
  function LineLength(line: string): Option<nat> {
    var value := Strip(After(line, ":"));
    if CanonicalHeader(Before(line, ":")) == CONTENT_LENGTH && AllDigits(value) then Some(ToNat(value)) else None
  }

  function BodyLength(lines: seq<string>): nat {
    if lines == [] then 0
    else match LineLength(lines[0])
      case Some(n) => n
      case None => BodyLength(lines[1..])
  }

  /** The length of the first complete message in a stream buffer. */
  function MessageLength(buf: string): (r: Option<nat>)
    ensures r.Some? ==> 4 <= r.value <= |buf|
  {
    match Find(buf, BLANK_LINE)
    case None => None
    case Some(i) =>
      var total := i + 4 + BodyLength(Split(buf[..i], CRLF));
      if |buf| >= total then Some(total) else None
  }

  // ---- Well-formed messages ----

  predicate OneLine(s: string) {
    '\r' !in s && '\n' !in s
  }

  predicate WellFormedStart(start: StartLine) {
    match start
    case Request(verb, uri) =>
      OneLine(verb) && ' ' !in verb && Upper(verb) == verb && verb != "SIP/2.0" && OneLine(uri) && ' ' !in uri
    case Response(_, reason) => OneLine(reason)
  }

  predicate WellFormedHeader(h: Header) {
    && CanonicalHeader(h.name) == h.name && OneLine(h.name) && ':' !in h.name
    && Stripped(h.value) && OneLine(h.value)
  }

  predicate WellFormed(m: Message) {
    WellFormedStart(m.start) && forall i :: 0 <= i < |m.headers| ==> WellFormedHeader(m.headers[i])
  }

  // ---- Printing keeps the lines apart ----

  predicate PlainLines(lines: seq<string>) {
    forall i :: 0 <= i < |lines| ==> lines[i] != "" && OneLine(lines[i])
  }

  /** The blank line is found right after the head, never inside it. */
  lemma {:induction false} BlankLineAfterHead(lines: seq<string>, rest: string)
    requires lines != [] && PlainLines(lines)
    ensures Find(Join(lines, CRLF) + BLANK_LINE + rest, BLANK_LINE) == Some(|Join(lines, CRLF)|)
    decreases |lines|
  {
    var line := lines[0];
    if |lines| == 1 {
      FindAfter(line, BLANK_LINE, rest);
    } else {
      var tail := Join(lines[1..], CRLF) + BLANK_LINE + rest;
      BlankLineAfterHead(lines[1..], rest);
      FindMeans(tail, BLANK_LINE);
      assert tail[0] == lines[1][0];
      var all := Join(lines, CRLF) + BLANK_LINE + rest;
      assert all == line + CRLF + tail;
      BlankLineShifts(line, tail);
    }
  }

  /** A line and its CRLF in front of a text that does not start with CR move its first blank line along. */
  lemma BlankLineShifts(line: string, tail: string)
    requires OneLine(line) && tail != "" && tail[0] != '\r' && Find(tail, BLANK_LINE).Some?
    ensures Find(line + CRLF + tail, BLANK_LINE) == Some(|line| + 2 + Find(tail, BLANK_LINE).value)
  {
    hide Find;
    forall j: nat | j < |line| + 2 ensures !OccursAt((line + CRLF) + tail, BLANK_LINE, j) {
      NoBlankLineInside(line, tail, j);
    }
    FindShifts(line + CRLF, tail, BLANK_LINE);
  }

  lemma NoBlankLineInside(line: string, tail: string, j: nat)
    requires OneLine(line) && tail != "" && tail[0] != '\r' && j < |line| + 2
    ensures !OccursAt(line + CRLF + tail, BLANK_LINE, j)
  {
    var all := line + CRLF + tail;
    if j + 4 <= |all| {
      var four := all[j..j + 4];
      if j < |line| {
        assert four[0] == line[j] && line[j] in line;
      } else if j == |line| {
        assert four[2] == tail[0];
      } else {
        assert four[0] == '\n';
      }
    }
  }

  lemma FirstLineIsPlain(start: StartLine)
    requires WellFormedStart(start)
    ensures FirstLine(start) != "" && OneLine(FirstLine(start))
  {
    hide Upper, FormatInt;
    match start {
      case Request(verb, uri) =>
        OneLineJoin(verb, " ", uri);
        OneLineJoin(verb + " " + uri, " SIP/2.0", "");
        assert FirstLine(start) == (verb + " " + uri) + " SIP/2.0" + "";
      case Response(status, reason) =>
        IntRoundTrip(status);
        OneLineJoin("SIP/2.0 ", FormatInt(status), " ");
        OneLineJoin("SIP/2.0 " + FormatInt(status) + " ", reason, "");
        assert FirstLine(start) == ("SIP/2.0 " + FormatInt(status) + " ") + reason + "";
    }
  }

  lemma OneLineJoin(a: string, b: string, c: string)
    requires OneLine(a) && OneLine(b) && OneLine(c)
    ensures OneLine(a + b + c)
  {
  }

  lemma HeaderLineIsPlain(h: Header)
    requires WellFormedHeader(h)
    ensures HeaderLine(h) != "" && OneLine(HeaderLine(h))
  {
    hide CanonicalHeader, Stripped;
  }

  lemma LinesArePlain(m: Message)
    requires WellFormed(m)
    ensures PlainLines(Lines(m))
  {
    hide FirstLine, HeaderLine, OneLine, WellFormedStart, WellFormedHeader;
    FirstLineIsPlain(m.start);
    forall i | 1 <= i < |Lines(m)| ensures Lines(m)[i] != "" && OneLine(Lines(m)[i]) {
      assert Lines(m)[i] == HeaderLine(m.headers[i - 1]);
      HeaderLineIsPlain(m.headers[i - 1]);
    }
  }

  lemma {:induction false} WithoutKeeps(headers: seq<Header>, name: string)
    requires forall i :: 0 <= i < |headers| ==> WellFormedHeader(headers[i])
    ensures forall i :: 0 <= i < |Without(headers, name)| ==> WellFormedHeader(Without(headers, name)[i])
  {
    forall i | 0 <= i < |Without(headers, name)| ensures WellFormedHeader(Without(headers, name)[i]) {
      assert Without(headers, name)[i] in headers;
    }
  }

  lemma ContentLengthName()
    ensures CanonicalHeader(CONTENT_LENGTH) == CONTENT_LENGTH && OneLine(CONTENT_LENGTH) && ':' !in CONTENT_LENGTH
  {
    TableLength("content-length");
    hide CanonicalHeader, Special, Compact;
    SpecialNames("content-length");
  }

  lemma LengthHeaderIsWellFormed(n: nat)
    ensures WellFormedHeader(Header(CONTENT_LENGTH, Decimal(n)))
  {
    hide CanonicalHeader, Decimal, Stripped;
    ContentLengthName();
    DigitsAreStripped(Decimal(n));
  }

  lemma NormalizedIsWellFormed(m: Message)
    requires WellFormed(m)
    ensures WellFormed(Normalized(m))
  {
    hide WellFormedStart, WellFormedHeader, Decimal, Without;
    WithoutKeeps(m.headers, CONTENT_LENGTH);
    LengthHeaderIsWellFormed(|m.body|);
  }

  // ---- Reading the lines back ----

  lemma StartReadsBack(start: StartLine)
    requires WellFormedStart(start)
    ensures ParseStart(FirstLine(start)) == Some(start)
  {
    var first := FirstLine(start);
    match start {
      case Request(verb, uri) => RequestReadsBack(verb, uri);
      case Response(status, reason) => ResponseReadsBack(status, reason);
    }
  }

  lemma ResponseReadsBack(status: int, reason: string)
    ensures ParseStart(FirstLine(Response(status, reason))) == Some(Response(status, reason))
  {
    var first := FirstLine(Response(status, reason));
    var rest := FormatInt(status) + " " + reason;
    IntRoundTrip(status);
    hide FormatInt, ToInt, Split;
    assert Upper(first)[..8] == "SIP/2.0 ";
    assert first == "SIP/2.0" + " " + rest;
    PartitionAt("SIP/2.0", " ", rest);
    PartitionAt(FormatInt(status), " ", reason);
  }

  lemma RequestReadsBack(verb: string, uri: string)
    requires WellFormedStart(Request(verb, uri))
    ensures ParseStart(FirstLine(Request(verb, uri))) == Some(Request(verb, uri))
  {
    var first := FirstLine(Request(verb, uri));
    var parts := [verb, uri, "SIP/2.0"];
    NotAResponse(verb, uri);
    assert StartsWith(Upper("SIP/2.0"), "SIP/2.0");
    hide Join, Split, Upper, StartsWith, OneLine;
    JoinThree(verb, uri, "SIP/2.0");
    assert first == verb + " " + uri + " " + "SIP/2.0";
    assert parts[0] == verb && parts[1] == uri && parts[2] == "SIP/2.0" && |parts| == 3;
    SplitJoin(parts, " ");
  }

  lemma JoinThree(a: string, b: string, c: string)
    ensures Join([a, b, c], " ") == a + " " + b + " " + c
  {
    assert [a, b, c][1..] == [b, c] && [b, c][1..] == [c];
    assert Join([c], " ") == c;
    assert Join([b, c], " ") == b + " " + c;
  }

  lemma Differ(a: string, b: string)
    requires |a| == |b| && a != b
    ensures exists i :: 0 <= i < |a| && a[i] != b[i]
  {
  }

  lemma NotAResponse(verb: string, uri: string)
    requires WellFormedStart(Request(verb, uri))
    ensures !StartsWith(Upper(FirstLine(Request(verb, uri))), "SIP/2.0 ")
  {
    var first := FirstLine(Request(verb, uri));
    var up, mark := Upper(first), "SIP/2.0 ";
    if |verb| < 7 {
      assert up[|verb|] == ' ' && mark[|verb|] != ' ';
    } else if |verb| > 7 {
      assert up[7] == UpperChar(verb[7]) && verb[7] in verb;
    } else {
      Differ(verb, "SIP/2.0");
      var i :| 0 <= i < 7 && verb[i] != "SIP/2.0"[i];
      assert up[i] == UpperChar(verb[i]) == Upper(verb)[i] == verb[i] && mark[i] == "SIP/2.0"[i];
    }
  }

  lemma HeaderReadsBack(h: Header)
    requires WellFormedHeader(h)
    ensures ParseHeader(HeaderLine(h)) == [h]
  {
    var line := HeaderLine(h);
    assert line == h.name + ":" + (" " + h.value);
    assert line[|h.name|] == ':';
    PartitionAt(h.name, ":", " " + h.value);
    StripSpace(h.value);
    hide CanonicalHeader;
  }

  lemma {:induction false} HeadersReadBack(headers: seq<Header>)
    requires forall i :: 0 <= i < |headers| ==> WellFormedHeader(headers[i])
    ensures ParseHeaders(HeaderLines(headers)) == headers
    decreases |headers|
  {
    hide WellFormedHeader, ParseHeader, HeaderLine;
    if headers != [] {
      var n := |headers| - 1;
      var lines := HeaderLines(headers);
      HeadersReadBack(headers[..n]);
      HeaderReadsBack(headers[n]);
      assert lines[..n] == HeaderLines(headers[..n]);
      assert lines[n] == HeaderLine(headers[n]);
      assert headers == headers[..n] + [headers[n]];
    }
  }

  lemma {:induction false} NothingFolded(lines: seq<string>)
    requires forall i :: 1 <= i < |lines| ==> !Folded(lines[i])
    ensures Unfold(lines) == lines
    decreases |lines|
  {
    if lines != [] {
      var n := |lines| - 1;
      NothingFolded(lines[..n]);
      assert lines == lines[..n] + [lines[n]];
    }
  }

  lemma HeaderNotFolded(h: Header)
    requires WellFormedHeader(h)
    ensures !Folded(HeaderLine(h))
  {
    CanonicalIsStripped(h.name);
    hide CanonicalHeader;
    if h.name == "" {
      assert HeaderLine(h)[0] == ':';
    } else {
      assert HeaderLine(h)[0] == h.name[0];
    }
  }

  lemma {:induction false} GetLast(headers: seq<Header>, last: Header)
    requires forall i :: 0 <= i < |headers| ==> headers[i].name != last.name
    ensures Get(headers + [last], last.name) == Some(last.value)
    decreases |headers|
  {
    if headers != [] {
      assert (headers + [last])[1..] == headers[1..] + [last];
      GetLast(headers[1..], last);
    }
  }

  lemma LengthHeader(m: Message)
    ensures Get(Normalized(m).headers, CONTENT_LENGTH) == Some(Decimal(|m.body|))
  {
    GetLast(Without(m.headers, CONTENT_LENGTH), Header(CONTENT_LENGTH, Decimal(|m.body|)));
  }

  lemma BodyReadsBack(m: Message)
    ensures Body(Normalized(m).headers, m.body) == m.body
  {
    LengthHeader(m);
    DecimalRoundTrip(|m.body|);
    DigitsAreStripped(Decimal(|m.body|));
    StrippedIsFixed(Decimal(|m.body|));
  }

  lemma HeadSplits(m: Message, rest: string)
    requires WellFormed(m)
    ensures var head := Join(Lines(m), CRLF);
            && Split(head, CRLF) == Lines(m)
            && Find(head + BLANK_LINE + rest, BLANK_LINE) == Some(|head|)
            && Before(head + BLANK_LINE + rest, BLANK_LINE) == head
            && After(head + BLANK_LINE + rest, BLANK_LINE) == rest
  {
    LinesArePlain(m);
    var lines := Lines(m);
    hide Lines;
    forall i | 0 <= i < |lines| ensures CRLF[0] !in lines[i] {
      assert OneLine(lines[i]);
    }
    SplitJoin(lines, CRLF);
    BlankLineAfterHead(lines, rest);
    var head := Join(lines, CRLF);
    var all := head + BLANK_LINE + rest;
    assert all[..|head|] == head && all[|head| + 4..] == rest;
  }

  lemma FirstLineNotBlank(start: StartLine)
    ensures Strip(FirstLine(start)) != ""
  {
    var first := FirstLine(start);
    var i := match start case Request(_, _) => |first| - 2 case Response(_, _) => 5;
    assert first[i] == '.';
    StripKeeps(first, i);
  }

  lemma LinesUnfold(m: Message)
    requires WellFormed(m)
    ensures Unfold(Lines(m)) == Lines(m)
  {
    hide Unfold, Folded, WellFormedHeader, WellFormedStart;
    forall i | 1 <= i < |Lines(m)| ensures !Folded(Lines(m)[i]) {
      HeaderNotFolded(m.headers[i - 1]);
    }
    NothingFolded(Lines(m));
  }

  lemma LinesReadBack(m: Message)
    requires WellFormed(m)
    ensures |Lines(m)| > 0 && Strip(Lines(m)[0]) != ""
    ensures ParseStart(Lines(m)[0]) == Some(m.start) && ParseHeaders(Lines(m)[1..]) == m.headers
  {
    hide ParseStart, ParseHeaders, Strip, FirstLine, WellFormedHeader, WellFormedStart;
    FirstLineNotBlank(m.start);
    StartReadsBack(m.start);
    HeadersReadBack(m.headers);
    assert Lines(m)[1..] == HeaderLines(m.headers);
  }

  /** Printing and parsing a well-formed message gives it back with one true Content-Length at the end. */
  lemma SerializeParses(m: Message)
    requires WellFormed(m)
    ensures Parse(Serialize(m)) == Some(Normalized(m))
  {
    var n := Normalized(m);
    assert n.start == m.start && n.body == m.body;
    assert Serialize(m) == Join(Lines(n), CRLF) + BLANK_LINE + m.body;
    hide Normalized, Join, Split, Unfold, ParseStart, ParseHeaders, Body, Before, After, Strip, Find, Lines, WellFormed,
        Serialize;
    NormalizedIsWellFormed(m);
    HeadSplits(n, m.body);
    LinesUnfold(n);
    LinesReadBack(n);
    BodyReadsBack(m);
  }

  // ---- The framing length of a printed message ----

  lemma NotALengthLine(name: string)
    requires name != "" && name[0] == 'S'
    ensures CanonicalHeader(name) != CONTENT_LENGTH
  {
    StripKeepsFirst(name);
    assert Lower(Strip(name))[0] == 's';
    hide CanonicalHeader, Lower, Strip;
    if CanonicalHeader(name) == CONTENT_LENGTH {
      CanonicalLength(name);
    }
  }

  lemma RequestHasNoLength(verb: string, uri: string)
    ensures LineLength(FirstLine(Request(verb, uri))) == None
  {
    var first := FirstLine(Request(verb, uri));
    hide CanonicalHeader;
    if Find(first, ":").Some? {
      FindMeans(first, ":");
      var i := Find(first, ":").value;
      hide Find;
      assert first[i] == first[i..i + 1][0] == ':';
      assert first[|first| - 7..] == "SIP/2.0";
      assert forall j :: |first| - 7 <= j < |first| ==> first[j] == "SIP/2.0"[j - (|first| - 7)];
      var value := first[i + 1..];
      assert value[|value| - 2] == '.';
      StripKeeps(value, |value| - 2);
    }
  }

  lemma ResponseHasNoLength(status: int, reason: string)
    ensures LineLength(FirstLine(Response(status, reason))) == None
  {
    var first := FirstLine(Response(status, reason));
    var name := Before(first, ":");
    FindMeans(first, ":");
    assert first[0] == 'S';
    hide Find, FirstLine, CanonicalHeader;
    assert first[0..1][0] == 'S';
    assert !OccursAt(first, ":", 0);
    assert name != "" && name[0] == 'S';
    NotALengthLine(name);
  }

  lemma FirstLineHasNoLength(start: StartLine)
    ensures LineLength(FirstLine(start)) == None
  {
    hide LineLength, FirstLine;
    match start
    case Request(verb, uri) => RequestHasNoLength(verb, uri);
    case Response(status, reason) => ResponseHasNoLength(status, reason);
  }

  lemma HeaderLength(h: Header)
    requires WellFormedHeader(h)
    ensures LineLength(HeaderLine(h))
            == if h.name == CONTENT_LENGTH && AllDigits(h.value) then Some(ToNat(h.value)) else None
  {
    assert HeaderLine(h) == h.name + ":" + (" " + h.value);
    PartitionAt(h.name, ":", " " + h.value);
    StripSpace(h.value);
    hide CanonicalHeader;
  }

  lemma {:induction false} BodyLengthOf(headers: seq<Header>, length: nat)
    requires forall i :: 0 <= i < |headers| ==> WellFormedHeader(headers[i])
    requires Get(headers, CONTENT_LENGTH) == Some(Decimal(length))
    ensures BodyLength(HeaderLines(headers)) == length
    decreases |headers|
  {
    hide WellFormedHeader, LineLength, HeaderLine, Decimal;
    var lines := HeaderLines(headers);
    HeaderLength(headers[0]);
    DecimalRoundTrip(length);
    assert lines[0] == HeaderLine(headers[0]) && lines[1..] == HeaderLines(headers[1..]);
    if headers[0].name != CONTENT_LENGTH {
      BodyLengthOf(headers[1..], length);
    }
  }

  lemma BodyLengthOfLines(n: Message, length: nat)
    requires WellFormed(n) && Get(n.headers, CONTENT_LENGTH) == Some(Decimal(length))
    ensures BodyLength(Lines(n)) == length
  {
    hide LineLength, FirstLine, Get, HeaderLine, Decimal, WellFormedHeader;
    FirstLineHasNoLength(n.start);
    BodyLengthOf(n.headers, length);
    assert Lines(n)[1..] == HeaderLines(n.headers) && Lines(n)[0] == FirstLine(n.start);
  }

  lemma SerializeIs(m: Message, rest: string)
    ensures Serialize(m) + rest == Join(Lines(Normalized(m)), CRLF) + BLANK_LINE + (m.body + rest)
    ensures |Serialize(m)| == |Join(Lines(Normalized(m)), CRLF)| + 4 + |m.body|
  {
    hide Normalized, Join, Lines;
  }

  /** A receiver cuts exactly one printed message off the stream, whatever follows it. */
  lemma SerializedLength(m: Message, rest: string)
    requires WellFormed(m)
    ensures MessageLength(Serialize(m) + rest) == Some(|Serialize(m)|)
  {
    hide Normalized, Join, Split, Get, WellFormed, Find, Lines, BodyLength, Serialize;
    var n := Normalized(m);
    var head := Join(Lines(n), CRLF);
    SerializeIs(m, rest);
    NormalizedIsWellFormed(m);
    LengthHeader(m);
    BodyLengthOfLines(n, |m.body|);
    HeadSplits(n, m.body + rest);
    var all := Serialize(m) + rest;
    assert all[..|head|] == head;
  }
}
