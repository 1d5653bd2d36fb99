/** Session descriptions that other agents send (sipgram/sip/sdp.py:63-130): which lines count for the audio,
    wherever they stand and whatever other media there are, and payload types that need no rtpmap. */
module SdpForeign {
  import opened Options
  import opened Sequences
  import opened Text
  import opened SdpText
  import opened SdpRoundTrip

  // ---- Lines ----

  /** The letter before the equals sign, or a space if the line is none of "x=...". */
  function KeyOf(raw: string): char {
    var line := Strip(raw);
    if |line| < 2 || line[1] != '=' then ' ' else line[0]
  }

  function ValueOf(raw: string): string {
    var line := Strip(raw);
    if |line| < 2 then "" else line[2..]
  }

  predicate Begins(raw: string) {
    KeyOf(raw) == 'm'
  }

  predicate BeginsAudio(raw: string) {
    Begins(raw) && Words(ValueOf(raw)) != [] && Words(ValueOf(raw))[0] == "audio"
  }

  /** The lines before the first audio section, those of it, and the rest. */
  function UpTo(lines: seq<string>): (n: nat)
    ensures n <= |lines|
    ensures forall i :: 0 <= i < n ==> !BeginsAudio(lines[i])
    ensures n < |lines| ==> BeginsAudio(lines[n])
  {
    if lines == [] || BeginsAudio(lines[0]) then 0
    else
      var n := UpTo(lines[1..]);
      assert forall i :: 0 < i < n + 1 ==> lines[i] == lines[1..][i - 1];
      1 + n
  }

  function UpToMedia(lines: seq<string>): (n: nat)
    ensures n <= |lines|
    ensures forall i :: 0 <= i < n ==> !Begins(lines[i])
    ensures n < |lines| ==> Begins(lines[n])
  {
    if lines == [] || Begins(lines[0]) then 0
    else
      var n := UpToMedia(lines[1..]);
      assert forall i :: 0 < i < n + 1 ==> lines[i] == lines[1..][i - 1];
      1 + n
  }

  /** The address of a c= line. */
  function AddressOf(raw: string): string
    requires KeyOf(raw) == 'c'
  {
    var parts := Words(ValueOf(raw));
    if |parts| >= 3 then parts[2] else ""
  }

  /** The address of the last c= line, or what there was before. */
  function LastAddress(lines: seq<string>, before: string): string
    decreases |lines|
  {
    if lines == [] then before
    else
      var last := lines[|lines| - 1];
      if KeyOf(last) == 'c' then AddressOf(last) else LastAddress(lines[..|lines| - 1], before)
  }

  predicate SaysDirection(raw: string) {
    KeyOf(raw) == 'a' && Before(ValueOf(raw), ":") in DIRECTIONS
  }

  function LastDirection(lines: seq<string>, before: string): string
    decreases |lines|
  {
    if lines == [] then before
    else
      var last := lines[|lines| - 1];
      if SaysDirection(last) then Before(ValueOf(last), ":") else LastDirection(lines[..|lines| - 1], before)
  }

  lemma {:induction false} AddressCons(first: string, rest: seq<string>, before: string)
    ensures LastAddress([first] + rest, before)
            == LastAddress(rest, if KeyOf(first) == 'c' then AddressOf(first) else before)
    decreases |rest|
  {
    hide KeyOf, ValueOf, AddressOf;
    var all := [first] + rest;
    if rest == [] {
      assert all[..|all| - 1] == [];
    } else {
      assert all[..|all| - 1] == [first] + rest[..|rest| - 1];
      AddressCons(first, rest[..|rest| - 1], before);
    }
  }

  lemma {:induction false} DirectionCons(first: string, rest: seq<string>, before: string)
    ensures LastDirection([first] + rest, before)
            == LastDirection(rest, if SaysDirection(first) then Before(ValueOf(first), ":") else before)
    decreases |rest|
  {
    hide KeyOf, ValueOf, SaysDirection;
    var all := [first] + rest;
    if rest == [] {
      assert all[..|all| - 1] == [];
    } else {
      assert all[..|all| - 1] == [first] + rest[..|rest| - 1];
      DirectionCons(first, rest[..|rest| - 1], before);
    }
  }

  // ---- One line ----

  /** What one line does before the audio section, in it, and after it. */
  lemma LineBefore(s: Scan, raw: string)
    requires !s.seenAudio && !s.inAudio && !BeginsAudio(raw)
    ensures var t := ScanLine(s, raw);
            t.Some? ==>
              && !t.value.seenAudio && !t.value.inAudio && t.value.mediaConn == s.mediaConn
              && t.value.sessionConn == (if KeyOf(raw) == 'c' then AddressOf(raw) else s.sessionConn)
              && t.value.sdp.direction
                 == (if SaysDirection(raw) then Before(ValueOf(raw), ":") else s.sdp.direction)
  {
    hide Strip, Words, Before, After, Split, AllDigits, ToNat, ToInt;
  }

  lemma LineIn(s: Scan, raw: string)
    requires s.seenAudio && s.inAudio && !Begins(raw)
    ensures var t := ScanLine(s, raw);
            t.Some? ==>
              && t.value.seenAudio && t.value.inAudio && t.value.sessionConn == s.sessionConn
              && t.value.mediaConn == (if KeyOf(raw) == 'c' then AddressOf(raw) else s.mediaConn)
              && t.value.sdp.direction
                 == (if SaysDirection(raw) then Before(ValueOf(raw), ":") else s.sdp.direction)
  {
    hide Strip, Words, Before, After, Split, AllDigits, ToNat, ToInt;
  }

  /** After the audio only an o= line is read, and a blank m= line raises. */
  lemma LineAfter(s: Scan, raw: string)
    requires s.seenAudio && !s.inAudio
    ensures var t := ScanLine(s, raw);
            && (KeyOf(raw) != 'o' && t.Some? ==> t == Some(s))
            && (t.None? ==> Begins(raw) && Words(ValueOf(raw)) == [])
            && (t.Some? ==>
                 && t.value.seenAudio && !t.value.inAudio && t.value.sessionConn == s.sessionConn
                 && t.value.mediaConn == s.mediaConn && t.value.sdp.direction == s.sdp.direction)
  {
    hide Strip, Words, Before, After, Split, AllDigits, ToNat, ToInt;
  }

  lemma LineOpens(s: Scan, raw: string)
    requires !s.seenAudio && BeginsAudio(raw)
    ensures var t := ScanLine(s, raw);
            t.Some? ==>
              && t.value.seenAudio && t.value.inAudio && t.value.sessionConn == s.sessionConn
              && t.value.mediaConn == s.mediaConn && t.value.sdp.direction == s.sdp.direction
  {
    hide Strip, Words, Before, After, Split, AllDigits, ToNat, ToInt;
  }

  lemma LineCloses(s: Scan, raw: string)
    requires s.seenAudio && Begins(raw)
    ensures var t := ScanLine(s, raw); t.Some? ==> t == Some(s.(inAudio := false))
  {
    hide Strip, Words, Before, After, Split, AllDigits, ToNat, ToInt;
  }

  // ---- Sections ----

  lemma {:induction false} SectionBefore(s: Scan, lines: seq<string>)
    requires !s.seenAudio && !s.inAudio && forall i :: 0 <= i < |lines| ==> !BeginsAudio(lines[i])
    ensures var t := ScanLines(s, lines);
            t.Some? ==>
              && !t.value.seenAudio && !t.value.inAudio && t.value.mediaConn == s.mediaConn
              && t.value.sessionConn == LastAddress(lines, s.sessionConn)
              && t.value.sdp.direction == LastDirection(lines, s.sdp.direction)
    decreases |lines|
  {
    hide ScanLine, BeginsAudio, KeyOf, ValueOf, AddressOf, SaysDirection, LastAddress, LastDirection;
    NoLines(s.sessionConn, s.sdp.direction);
    if lines != [] {
      LineBefore(s, lines[0]);
      AddressCons(lines[0], lines[1..], s.sessionConn);
      DirectionCons(lines[0], lines[1..], s.sdp.direction);
      assert [lines[0]] + lines[1..] == lines;
      if ScanLine(s, lines[0]).Some? {
        SectionBefore(ScanLine(s, lines[0]).value, lines[1..]);
      }
    }
  }

  lemma NoLines(address: string, direction: string)
    ensures LastAddress([], address) == address && LastDirection([], direction) == direction
  {
  }

  lemma {:induction false} SectionIn(s: Scan, lines: seq<string>)
    requires s.seenAudio && s.inAudio && forall i :: 0 <= i < |lines| ==> !Begins(lines[i])
    ensures var t := ScanLines(s, lines);
            t.Some? ==>
              && t.value.seenAudio && t.value.inAudio && t.value.sessionConn == s.sessionConn
              && t.value.mediaConn == LastAddress(lines, s.mediaConn)
              && t.value.sdp.direction == LastDirection(lines, s.sdp.direction)
    decreases |lines|
  {
    hide ScanLine, Begins, KeyOf, ValueOf, AddressOf, SaysDirection, LastAddress, LastDirection;
    NoLines(s.mediaConn, s.sdp.direction);
    if lines != [] {
      LineIn(s, lines[0]);
      AddressCons(lines[0], lines[1..], s.mediaConn);
      DirectionCons(lines[0], lines[1..], s.sdp.direction);
      assert [lines[0]] + lines[1..] == lines;
      if ScanLine(s, lines[0]).Some? {
        SectionIn(ScanLine(s, lines[0]).value, lines[1..]);
      }
    }
  }

  lemma {:induction false} SectionAfter(s: Scan, lines: seq<string>)
    requires s.seenAudio && !s.inAudio
    ensures var t := ScanLines(s, lines);
            t.Some? ==>
              && t.value.sessionConn == s.sessionConn && t.value.mediaConn == s.mediaConn
              && t.value.sdp.direction == s.sdp.direction
    decreases |lines|
  {
    hide ScanLine, Begins, KeyOf, ValueOf;
    if lines != [] {
      LineAfter(s, lines[0]);
      if ScanLine(s, lines[0]).Some? {
        SectionAfter(ScanLine(s, lines[0]).value, lines[1..]);
      }
    }
  }

  // ---- The address and the direction of the audio ----

  lemma ScanOne(s: Scan, raw: string)
    ensures ScanLines(s, [raw]) == ScanLine(s, raw)
  {
    hide ScanLine;
  }

  lemma Scanned(lines: seq<string>)
    ensures var n := UpTo(lines); var rest := lines[n..];
            var m := if rest == [] then 0 else 1 + UpToMedia(rest[1..]);
            ScanLines(START, lines).Some? ==>
              var s := ScanLines(START, lines).value;
              && m <= |rest|
              && s.sessionConn == LastAddress(lines[..n], "") && s.mediaConn == LastAddress(rest[..m], "")
              && s.sdp.direction == LastDirection(rest[..m], LastDirection(lines[..n], "sendrecv"))
  {
    hide ScanLine, ScanLines, UpTo, UpToMedia, Begins, BeginsAudio, LastAddress, LastDirection, KeyOf, SaysDirection;
    var n := UpTo(lines);
    var head, rest := lines[..n], lines[n..];
    assert head + rest == lines;
    ScanConcat(START, head, rest);
    SectionBefore(START, head);
    NoLines("", LastDirection(head, "sendrecv"));
    if ScanLines(START, head).Some? {
      var s := ScanLines(START, head).value;
      if rest == [] {
        ScanNothing(s);
        assert rest[..0] == [];
      } else {
        AudioScanned(s, rest);
      }
    }
  }

  lemma ScanNothing(s: Scan)
    ensures ScanLines(s, []) == Some(s)
  {
  }

  lemma AudioScanned(s: Scan, rest: seq<string>)
    requires !s.seenAudio && rest != [] && BeginsAudio(rest[0]) && s.mediaConn == ""
    ensures var m := 1 + UpToMedia(rest[1..]);
            m <= |rest| && (ScanLines(s, rest).Some? ==>
              var t := ScanLines(s, rest).value;
              && t.sessionConn == s.sessionConn && t.mediaConn == LastAddress(rest[..m], "")
              && t.sdp.direction == LastDirection(rest[..m], s.sdp.direction))
  {
    hide ScanLine, ScanLines, Begins, BeginsAudio, LastAddress, LastDirection, KeyOf, SaysDirection, UpToMedia;
    var k := UpToMedia(rest[1..]);
    var body, tail := rest[1..][..k], rest[1..][k..];
    assert [rest[0]] + (body + tail) == rest && rest[..1 + k] == [rest[0]] + body;
    ScanConcat(s, [rest[0]], body + tail);
    ScanOne(s, rest[0]);
    LineOpens(s, rest[0]);
    OpeningLine(rest[0]);
    AddressCons(rest[0], body, "");
    DirectionCons(rest[0], body, s.sdp.direction);
    if ScanLine(s, rest[0]).Some? {
      var a := ScanLine(s, rest[0]).value;
      ScanConcat(a, body, tail);
      SectionIn(a, body);
      if ScanLines(a, body).Some? {
        var b := ScanLines(a, body).value;
        if tail == [] {
          ScanNothing(b);
        } else {
          assert [tail[0]] + tail[1..] == tail;
          ScanConcat(b, [tail[0]], tail[1..]);
          ScanOne(b, tail[0]);
          LineCloses(b, tail[0]);
          if ScanLine(b, tail[0]).Some? {
            SectionAfter(ScanLine(b, tail[0]).value, tail[1..]);
          }
        }
      }
    }
  }

  lemma OpeningLine(raw: string)
    requires BeginsAudio(raw)
    ensures KeyOf(raw) != 'c' && !SaysDirection(raw)
  {
    hide Strip;
  }

  /** Where the audio goes: the last address given in the audio section, else the last one given before it, else the
      origin's; and its direction: the last one stated in the audio section or before it, else both ways. What stands
      after the audio section makes no difference to either. */
  lemma AudioGoesWhere(lines: seq<string>)
    requires lines != [] && forall i :: 0 <= i < |lines| ==> Plain(lines[i])
    ensures var text := Join(lines, CRLF) + CRLF;
            var n := UpTo(lines); var rest := lines[n..];
            var m := if rest == [] then 0 else 1 + UpToMedia(rest[1..]);
            Parse(text).Some? ==>
              var sdp := Parse(text).value; var own, general := LastAddress(rest[..m], ""), LastAddress(lines[..n], "");
              && sdp.connIp == (if own != "" then own else if general != "" then general else sdp.originIp)
              && sdp.direction == LastDirection(rest[..m], LastDirection(lines[..n], "sendrecv"))
  {
    hide ScanLines, UpTo, UpToMedia, LastAddress, LastDirection, Join, Listed, Parse;
    ParsedLines(lines);
    Scanned(lines);
  }

  lemma BlankLine(s: Scan)
    ensures ScanLines(s, [""]) == Some(s)
  {
    hide ScanLine;
    ScanOne(s, "");
    BlankScan(s);
  }

  lemma BlankScan(s: Scan)
    ensures ScanLine(s, "") == Some(s)
  {
  }

  // ---- Other media ----

  lemma {:induction false} RestIgnored(s: Scan, rest: seq<string>)
    requires s.seenAudio && !s.inAudio
    requires forall i :: 0 <= i < |rest| ==>
      KeyOf(rest[i]) != 'o' && (Begins(rest[i]) ==> Words(ValueOf(rest[i])) != [])
    ensures ScanLines(s, rest) == Some(s)
    decreases |rest|
  {
    hide ScanLine, KeyOf, ValueOf, Words;
    if rest != [] {
      LineAfter(s, rest[0]);
      RestIgnored(s, rest[1..]);
    }
  }

  /** The lines of other media: none of them an o= line, no m= line blank. */
  predicate OtherMedia(rest: seq<string>) {
    && rest != [] && Begins(rest[0])
    && forall i :: 0 <= i < |rest| ==> KeyOf(rest[i]) != 'o' && (Begins(rest[i]) ==> Words(ValueOf(rest[i])) != [])
  }

  lemma RestScanned(s: Scan, rest: seq<string>)
    requires s.seenAudio && OtherMedia(rest)
    ensures ScanLines(s, rest) == Some(s.(inAudio := false))
  {
    hide ScanLine, ScanLines, KeyOf, ValueOf, Words, Begins;
    assert [rest[0]] + rest[1..] == rest;
    ScanConcat(s, [rest[0]], rest[1..]);
    ScanOne(s, rest[0]);
    LineCloses(s, rest[0]);
    NoRaise(s, rest[0]);
    forall i | 0 <= i < |rest[1..]|
        ensures KeyOf(rest[1..][i]) != 'o' && (Begins(rest[1..][i]) ==> Words(ValueOf(rest[1..][i])) != []) {
      assert rest[1..][i] == rest[i + 1];
    }
    RestIgnored(s.(inAudio := false), rest[1..]);
  }

  /** What `parse` makes of lines joined to a text. */
  lemma ParsedLines(lines: seq<string>)
    requires lines != [] && forall i :: 0 <= i < |lines| ==> Plain(lines[i])
    ensures Parse(Join(lines, CRLF) + CRLF)
            == match ScanLines(START, lines) case None => None case Some(s) => Some(Finish(s))
  {
    hide ScanLine, ScanLines, Join, Lines, Finish;
    LinesOfText(lines);
    ScanConcat(START, lines, [""]);
    if ScanLines(START, lines).Some? {
      BlankLine(ScanLines(START, lines).value);
    }
  }

  lemma FinishIgnores(s: Scan)
    ensures Finish(s.(inAudio := false)) == Finish(s)
  {
    SameListed(s, s.order);
  }

  lemma {:induction false} SameListed(s: Scan, order: seq<nat>)
    ensures Listed(s.(inAudio := false), order) == Listed(s, order)
  {
    if order != [] {
      SameListed(s, order[1..]);
    }
  }

  lemma RestParsed(lines: seq<string>, rest: seq<string>)
    requires OtherMedia(rest) && exists i :: 0 <= i < |lines| && BeginsAudio(lines[i])
    ensures ScanLines(START, lines + rest)
            == match ScanLines(START, lines) case None => None case Some(s) => Some(s.(inAudio := false))
  {
    hide ScanLines, BeginsAudio, OtherMedia;
    ScanConcat(START, lines, rest);
    if ScanLines(START, lines).Some? {
      AudioSeen(START, lines);
      RestScanned(ScanLines(START, lines).value, rest);
    }
  }

  predicate AllPlain(lines: seq<string>) {
    forall i :: 0 <= i < |lines| ==> Plain(lines[i])
  }

  /** Media after the audio do not matter at all, whatever is said of them. */
  lemma OtherMediaIgnored(lines: seq<string>, rest: seq<string>)
    requires lines != [] && OtherMedia(rest) && AllPlain(lines) && AllPlain(rest)
    requires exists i :: 0 <= i < |lines| && BeginsAudio(lines[i])
    ensures Parse(Join(lines + rest, CRLF) + CRLF) == Parse(Join(lines, CRLF) + CRLF)
  {
    hide ScanLines, Join, Finish, BeginsAudio, OtherMedia, Parse;
    ParsedLines(lines);
    ParsedLines(lines + rest);
    RestParsed(lines, rest);
    if ScanLines(START, lines).Some? {
      FinishIgnores(ScanLines(START, lines).value);
    }
  }

  lemma NoRaise(s: Scan, raw: string)
    requires s.seenAudio && Begins(raw) && Words(ValueOf(raw)) != []
    ensures ScanLine(s, raw).Some?
  {
    hide Strip, Words;
  }

  lemma {:induction false} AudioSeen(s: Scan, lines: seq<string>)
    requires ScanLines(s, lines).Some?
    requires s.seenAudio || exists i :: 0 <= i < |lines| && BeginsAudio(lines[i])
    ensures ScanLines(s, lines).value.seenAudio
    decreases |lines|
  {
    hide ScanLine, BeginsAudio;
    if lines != [] {
      LineSeen(s, lines[0]);
      var next := ScanLine(s, lines[0]).value;
      if !s.seenAudio && !BeginsAudio(lines[0]) {
        var i :| 0 <= i < |lines| && BeginsAudio(lines[i]);
        assert lines[1..][i - 1] == lines[i];
      }
      AudioSeen(next, lines[1..]);
    }
  }

  lemma LineSeen(s: Scan, raw: string)
    requires ScanLine(s, raw).Some?
    ensures s.seenAudio || BeginsAudio(raw) ==> ScanLine(s, raw).value.seenAudio
  {
    hide Strip, Words, Before, After, Split, AllDigits, ToNat, ToInt;
  }

  // ---- Session numbers ----

  /** A session gets its number and version when it is first printed, and keeps them; numbers it has are not changed. */
  lemma NumberedOnce(s: Sdp, now: nat, later: nat)
    requires now > 0
    ensures var once := Numbered(s, now);
            && once.sessionId == (if s.sessionId == 0 then now else s.sessionId) && once.sessionId > 0
            && once.sessionVersion == (if s.sessionVersion == 0 then once.sessionId else s.sessionVersion)
            && Numbered(once, later) == once
            && once.(sessionId := s.sessionId, sessionVersion := s.sessionVersion) == s
  {
  }

  // ---- Static payload types ----

  /** Table 4 of RFC 3551, as far as it is known here: type, encoding name, clock rate, channels. */
  const PROFILE: seq<(nat, string, nat, nat)> := [
    (0, "PCMU", 8000, 1), (3, "GSM", 8000, 1), (8, "PCMA", 8000, 1), (9, "G722", 8000, 1), (10, "L16", 44100, 2),
    (11, "L16", 44100, 1), (13, "CN", 8000, 1), (18, "G729", 8000, 1)]

  /** A payload type without an rtpmap line is a codec of the profile, or none. */
  lemma StaticTypes(s: Scan, pt: nat)
    requires pt !in s.rtpmap && s.order == [pt]
    ensures var fmtp := if pt in s.fmtp then s.fmtp[pt] else "";
            && (forall i :: 0 <= i < |PROFILE| && PROFILE[i].0 == pt ==>
                 Finish(s).codecs == [Codec(pt, PROFILE[i].1, PROFILE[i].2, PROFILE[i].3, fmtp)])
            && ((forall i :: 0 <= i < |PROFILE| ==> PROFILE[i].0 != pt) ==> Finish(s).codecs == [])
  {
    assert Listed(s, [pt][1..]) == [];
    assert PROFILE[0].0 == 0 && PROFILE[1].0 == 3 && PROFILE[2].0 == 8 && PROFILE[3].0 == 9 && PROFILE[4].0 == 10
        && PROFILE[5].0 == 11 && PROFILE[6].0 == 13 && PROFILE[7].0 == 18;
  }
}
