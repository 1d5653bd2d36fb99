/** The mutable message object of sipgram/sip/message.py and the loops of its parser. */
module SipMessageObjects {
  import opened Options
  import opened Text
  import opened HeaderNames
  import opened SipMessages

  class SipMessage {
    var start: StartLine
    var headers: seq<Header>
    var body: string

    function Value(): Message
      reads this
    {
      Message(start, headers, body)
    }

    /** Every stored name is canonical, so that lookups by any spelling agree. */
    ghost predicate Valid()
      reads this
    {
      forall i :: 0 <= i < |headers| ==> CanonicalHeader(headers[i].name) == headers[i].name
    }

    constructor Request(verb: string, uri: string)
      ensures Valid() && Value() == Message(StartLine.Request(Upper(verb), uri), [], "")
    {
      start, headers, body := StartLine.Request(Upper(verb), uri), [], "";
    }

    constructor Response(status: int, reason: string)
      ensures Valid() && Value() == Message(StartLine.Response(status, reason), [], "")
    {
      start, headers, body := StartLine.Response(status, reason), [], "";
    }

    method Lookup(name: string) returns (value: Option<string>)
      ensures value == Get(headers, CanonicalHeader(name))
    {
      var cname := CanonicalHeader(name);
      for i := 0 to |headers|
        invariant Get(headers, cname) == Get(headers[i..], cname)
      {
        assert headers[i..][1..] == headers[i + 1..];
        if headers[i].name == cname {
          return Some(headers[i].value);
        }
      }
      assert headers[|headers|..] == [];
      return None;
    }

    method Remove(name: string)
      requires Valid()
      modifies this`headers
      ensures Valid() && headers == Without(old(headers), CanonicalHeader(name))
    {
      hide CanonicalHeader;
      headers := Without(headers, CanonicalHeader(name));
    }

    method Add(name: string, value: string)
      requires Valid()
      modifies this`headers
      ensures Valid() && headers == old(headers) + [Header(CanonicalHeader(name), value)]
    {
      CanonicalIdempotent(name);
      hide CanonicalHeader;
      headers := headers + [Header(CanonicalHeader(name), value)];
    }

    /** Afterwards the header has this one value, and every other header is as before. */
    method Set(name: string, value: string)
      requires Valid()
      modifies this`headers
      ensures Valid()
      ensures headers == Without(old(headers), CanonicalHeader(name)) + [Header(CanonicalHeader(name), value)]
      ensures Get(headers, CanonicalHeader(name)) == Some(value)
      ensures forall other :: other != CanonicalHeader(name) ==> Get(headers, other) == Get(old(headers), other)
    {
      CanonicalIdempotent(name);
      hide CanonicalHeader;
      var cname := CanonicalHeader(name);
      ghost var before := headers;
      Remove(cname);
      headers := headers + [Header(cname, value)];
      SetReadsBack(before, cname, value);
    }

    /** `serialize`: prints the message and leaves the Content-Length it printed in the list. */
    method Print() returns (data: string)
      requires Valid()
      modifies this`headers
      ensures Valid() && Value() == Normalized(old(Value())) && data == Serialize(old(Value()))
    {
      ContentLengthName();
      hide CanonicalHeader, Decimal;
      Set(CONTENT_LENGTH, Decimal(|body|));
      var lines := [FirstLine(start)];
      for i := 0 to |headers|
        invariant lines == [FirstLine(start)] + HeaderLines(headers[..i])
      {
        assert HeaderLines(headers[..i + 1]) == HeaderLines(headers[..i]) + [HeaderLine(headers[i])];
        lines := lines + [HeaderLine(headers[i])];
      }
      assert headers[..|headers|] == headers;
      data := Join(lines, CRLF) + BLANK_LINE + body;
    }
  }

  lemma {:induction false} GetConcat(a: seq<Header>, b: seq<Header>, name: string)
    ensures Get(a + b, name) == if Get(a, name).Some? then Get(a, name) else Get(b, name)
    decreases |a|
  {
    if a == [] {
      assert a + b == b;
    } else {
      assert (a + b)[1..] == a[1..] + b;
      GetConcat(a[1..], b, name);
    }
  }

  lemma {:induction false} GetWithout(headers: seq<Header>, name: string, other: string)
    ensures Get(Without(headers, name), other) == if other == name then None else Get(headers, other)
    decreases |headers|
  {
    if headers != [] {
      GetWithout(headers[1..], name, other);
      GetConcat(if headers[0].name == name then [] else [headers[0]], Without(headers[1..], name), other);
    }
  }

  lemma SetReadsBack(headers: seq<Header>, name: string, value: string)
    ensures var now := Without(headers, name) + [Header(name, value)];
            && Get(now, name) == Some(value)
            && forall other :: other != name ==> Get(now, other) == Get(headers, other)
  {
    var last := [Header(name, value)];
    forall other ensures Get(Without(headers, name) + last, other)
                         == if other == name then Some(value) else Get(headers, other)
    {
      GetConcat(Without(headers, name), last, other);
      GetWithout(headers, name, other);
      assert last[1..] == [];
    }
  }

  /** The first loop of `parse`: continuation lines are folded into the line before. */
  method UnfoldLines(raw: seq<string>) returns (lines: seq<string>)
    ensures lines == Unfold(raw)
  {
    lines := [];
    hide Strip;
    for i := 0 to |raw|
      invariant lines == Unfold(raw[..i])
    {
      assert raw[..i + 1][..i] == raw[..i];
      var line := raw[i];
      if Folded(line) && lines != [] {
        lines := lines[..|lines| - 1] + [lines[|lines| - 1] + " " + Strip(line)];
      } else {
        lines := lines + [line];
      }
    }
    assert raw[..|raw|] == raw;
  }

  method CollectHeaders(lines: seq<string>) returns (headers: seq<Header>)
    ensures headers == ParseHeaders(lines)
  {
    headers := [];
    hide CanonicalHeader, Strip, Before, After;
    for i := 0 to |lines|
      invariant headers == ParseHeaders(lines[..i])
    {
      assert lines[..i + 1][..i] == lines[..i];
      var line := lines[i];
      if ':' in line {
        headers := headers + [Header(CanonicalHeader(Before(line, ":")), Strip(After(line, ":")))];
      }
    }
    assert lines[..|lines|] == lines;
  }

  /** `SipMessage.parse`; None stands for ValueError. */
  method ParseMessage(data: string) returns (r: Option<Message>)
    ensures r == Parse(data)
  {
    var raw := Split(Before(data, BLANK_LINE), CRLF);
    if Strip(raw[0]) == "" {
      return None;
    }
    hide ParseStart, Strip, Before, After, Split, Body, ParseHeaders;
    var lines := UnfoldLines(raw);
    var start := ParseStart(lines[0]);
    if start.None? {
      return None;
    }
    var headers := CollectHeaders(lines[1..]);
    r := Some(Message(start.value, headers, Body(headers, After(data, BLANK_LINE))));
  }

  /** The loop of `message_length`: the first usable Content-Length decides. */
  method FirstLength(lines: seq<string>) returns (length: nat)
    ensures length == BodyLength(lines)
  {
    hide LineLength;
    for i := 0 to |lines|
      invariant BodyLength(lines) == BodyLength(lines[i..])
    {
      assert lines[i..][1..] == lines[i + 1..];
      var found := LineLength(lines[i]);
      if found.Some? {
        return found.value;
      }
    }
    assert lines[|lines|..] == [];
    return 0;
  }

  /** `message_length`. */
  method FindMessageLength(buf: string) returns (r: Option<nat>)
    ensures r == MessageLength(buf)
  {
    var at := Find(buf, BLANK_LINE);
    hide Find, Split, BodyLength;
    if at.None? {
      return None;
    }
    var length := FirstLength(Split(buf[..at.value], CRLF));
    var total := at.value + 4 + length;
    r := if |buf| >= total then Some(total) else None;
  }
}
