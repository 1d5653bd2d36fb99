/** SIP messages that other agents print (sipgram/sip/message.py:297-331): compact and oddly spelt names, spaces around
    values, values folded over several lines, and bodies with or without a Content-Length. */
module SipForeign {
  import opened Options
  import opened Sequences
  import opened Text
  import opened HeaderNames
  import opened SipMessages

  // ---- A header as it may stand on the wire ----

  /** A continuation line. */
  datatype Fold = Fold(blank: string, text: string)

  /** A name, a colon, blanks, the beginning of a value, and what continues it on further lines. */
  datatype Row = Row(name: string, gap: string, first: string, more: seq<Fold>)

  predicate Blank(s: string) {
    forall i :: 0 <= i < |s| ==> s[i] == ' ' || s[i] == '\t'
  }

  predicate Piece(s: string) {
    s != "" && Stripped(s) && OneLine(s)
  }

  predicate ProperFold(f: Fold) {
    f.blank != "" && Blank(f.blank) && Piece(f.text)
  }

  predicate ProperRow(r: Row) {
    && r.name != "" && !Folded(r.name) && ':' !in r.name && OneLine(r.name) && Blank(r.gap)
    && (Piece(r.first) || (r.first == "" && r.more == []))
    && forall i :: 0 <= i < |r.more| ==> ProperFold(r.more[i])
  }

  /** The value, its pieces joined by single spaces. */
  function ValueOf(r: Row): string
    decreases |r.more|
  {
    if r.more == [] then r.first
    else ValueOf(r.(more := r.more[..|r.more| - 1])) + " " + r.more[|r.more| - 1].text
  }

  /** The lines it takes. */
  function LinesOf(r: Row): (lines: seq<string>)
    ensures |lines| == 1 + |r.more|
    decreases |r.more|
  {
    if r.more == [] then [r.name + ":" + r.gap + r.first]
    else
      var last := r.more[|r.more| - 1];
      LinesOf(r.(more := r.more[..|r.more| - 1])) + [last.blank + last.text]
  }

  function AllLines(rows: seq<Row>): seq<string> {
    if rows == [] then [] else AllLines(rows[..|rows| - 1]) + LinesOf(rows[|rows| - 1])
  }

  function HeadersOf(rows: seq<Row>): (headers: seq<Header>)
    ensures |headers| == |rows|
  {
    seq(|rows|, i requires 0 <= i < |rows| => Header(CanonicalHeader(rows[i].name), ValueOf(rows[i])))
  }

  function PrintForeign(start: StartLine, rows: seq<Row>, rest: string): string {
    Join([FirstLine(start)] + AllLines(rows), CRLF) + BLANK_LINE + rest
  }

  // ---- Stripping ----

  lemma {:induction false} BlankGone(blank: string, text: string)
    requires Blank(blank) && Stripped(text)
    ensures Strip(blank + text) == text
    decreases |blank|
  {
    if blank == "" {
      assert blank + text == text;
      StrippedIsFixed(text);
    } else {
      assert (blank + text)[1..] == blank[1..] + text;
      assert StripLeft(blank + text) == StripLeft(blank[1..] + text);
      BlankGone(blank[1..], text);
    }
  }

  lemma {:induction false} ValueStripped(r: Row)
    requires ProperRow(r)
    ensures Stripped(ValueOf(r)) && OneLine(ValueOf(r))
    ensures r.first != "" ==> ValueOf(r) != "" && ValueOf(r)[0] == r.first[0]
    decreases |r.more|
  {
    if r.more != [] {
      var shorter := r.(more := r.more[..|r.more| - 1]);
      ValueStripped(shorter);
      var last := r.more[|r.more| - 1].text;
      assert ValueOf(r) == ValueOf(shorter) + " " + last;
      assert ValueOf(r)[|ValueOf(r)| - 1] == last[|last| - 1];
    }
  }

  // ---- Unfolding ----

  /** The line that the unfolded row is. */
  function Logical(r: Row): string {
    r.name + ":" + r.gap + ValueOf(r)
  }

  lemma {:induction false} UnfoldRow(before: seq<string>, r: Row)
    requires before != [] && ProperRow(r)
    ensures Unfold(before + LinesOf(r)) == Unfold(before) + [Logical(r)]
    decreases |r.more|
  {
    hide Strip, Piece, Unfold, Folded, Logical, ProperFold;
    if r.more == [] {
      NameNotFolded(r);
      NextLine(before, r.name + ":" + r.gap + r.first);
      OneLineLogical(r);
    } else {
      var shorter, last := r.(more := r.more[..|r.more| - 1]), r.more[|r.more| - 1];
      UnfoldRow(before, shorter);
      FoldIsFolded(last);
      LongerLogical(r);
      FoldedLine(before + LinesOf(shorter), last.blank + last.text, Unfold(before), Logical(shorter));
      assert before + LinesOf(r) == before + LinesOf(shorter) + [last.blank + last.text];
    }
  }

  lemma OneLineLogical(r: Row)
    requires r.more == []
    ensures Logical(r) == r.name + ":" + r.gap + r.first
  {
  }

  lemma NextLine(raw: seq<string>, line: string)
    requires !Folded(line)
    ensures Unfold(raw + [line]) == Unfold(raw) + [line]
  {
    hide Strip;
    assert (raw + [line])[..|raw|] == raw;
  }

  lemma FoldedLine(raw: seq<string>, line: string, front: seq<string>, open: string)
    requires Folded(line) && Unfold(raw) == front + [open]
    ensures Unfold(raw + [line]) == front + [open + " " + Strip(line)]
  {
    hide Strip, Folded;
    assert (raw + [line])[..|raw|] == raw;
    var lines := front + [open];
    assert lines[..|lines| - 1] == front && lines[|lines| - 1] == open;
  }

  lemma NameNotFolded(r: Row)
    requires ProperRow(r)
    ensures !Folded(r.name + ":" + r.gap + r.first)
  {
    assert (r.name + ":" + r.gap + r.first)[0] == r.name[0];
  }

  lemma FoldIsFolded(f: Fold)
    requires ProperFold(f)
    ensures Folded(f.blank + f.text) && Strip(f.blank + f.text) == f.text
  {
    hide Strip;
    BlankGone(f.blank, f.text);
  }

  lemma LongerLogical(r: Row)
    requires r.more != []
    ensures Logical(r) == Logical(r.(more := r.more[..|r.more| - 1])) + " " + r.more[|r.more| - 1].text
  {
    var a, b, c := r.name + ":" + r.gap, ValueOf(r.(more := r.more[..|r.more| - 1])), " ";
    assert a + (b + c + r.more[|r.more| - 1].text) == (a + b) + c + r.more[|r.more| - 1].text;
  }

  function Logicals(rows: seq<Row>): (lines: seq<string>)
    ensures |lines| == |rows|
  {
    seq(|rows|, i requires 0 <= i < |rows| => Logical(rows[i]))
  }

  lemma {:induction false} UnfoldRows(first: string, rows: seq<Row>)
    requires forall i :: 0 <= i < |rows| ==> ProperRow(rows[i])
    ensures Unfold([first] + AllLines(rows)) == [first] + Logicals(rows)
    decreases |rows|
  {
    hide ProperRow, Unfold, Logical;
    if rows == [] {
      assert [first] + [] == [first];
      UnfoldOne(first);
    } else {
      var front, last := rows[..|rows| - 1], rows[|rows| - 1];
      UnfoldRows(first, front);
      Regroup([first], AllLines(front), LinesOf(last));
      UnfoldRow([first] + AllLines(front), last);
      assert Logicals(rows) == Logicals(front) + [Logical(last)];
    }
  }

  lemma UnfoldOne(first: string)
    ensures Unfold([first]) == [first]
  {
    assert [first][..0] == [];
  }

  // ---- Reading the rows ----

  lemma RowReads(r: Row)
    requires ProperRow(r)
    ensures ParseHeader(Logical(r)) == [Header(CanonicalHeader(r.name), ValueOf(r))]
  {
    hide CanonicalHeader, Strip, ValueOf;
    ValueStripped(r);
    var line := Logical(r);
    assert line == r.name + ":" + (r.gap + ValueOf(r));
    assert line[|r.name|] == ':';
    PartitionAt(r.name, ":", r.gap + ValueOf(r));
    BlankGone(r.gap, ValueOf(r));
  }

  lemma {:induction false} RowsRead(rows: seq<Row>)
    requires forall i :: 0 <= i < |rows| ==> ProperRow(rows[i])
    ensures ParseHeaders(Logicals(rows)) == HeadersOf(rows)
    decreases |rows|
  {
    hide ProperRow, ParseHeader, Logical, CanonicalHeader, ValueOf;
    if rows != [] {
      var front, last := rows[..|rows| - 1], rows[|rows| - 1];
      RowsRead(front);
      RowReads(last);
      var lines := Logicals(rows);
      assert lines[..|lines| - 1] == Logicals(front);
      assert HeadersOf(rows) == HeadersOf(front) + [Header(CanonicalHeader(last.name), ValueOf(last))];
    }
  }

  // ---- The head ----

  lemma {:induction false} RowPlain(r: Row)
    requires ProperRow(r)
    ensures PlainLines(LinesOf(r))
    decreases |r.more|
  {
    hide Stripped;
    if r.more == [] {
      var line := r.name + ":" + r.gap + r.first;
      assert line[0] == r.name[0];
    } else {
      var last := r.more[|r.more| - 1];
      RowPlain(r.(more := r.more[..|r.more| - 1]));
      assert ProperFold(last);
      assert (last.blank + last.text)[0] == last.blank[0];
    }
  }

  lemma {:induction false} RowsPlain(rows: seq<Row>)
    requires forall i :: 0 <= i < |rows| ==> ProperRow(rows[i])
    ensures PlainLines(AllLines(rows))
    decreases |rows|
  {
    hide ProperRow;
    if rows != [] {
      RowsPlain(rows[..|rows| - 1]);
      RowPlain(rows[|rows| - 1]);
    }
  }

  lemma HeadOfLines(lines: seq<string>, rest: string)
    requires lines != [] && PlainLines(lines)
    ensures var head := Join(lines, CRLF); var all := head + BLANK_LINE + rest;
            Split(Before(all, BLANK_LINE), CRLF) == lines && After(all, BLANK_LINE) == rest
  {
    hide Join, Split, Find;
    forall i | 0 <= i < |lines| ensures CRLF[0] !in lines[i] {
      assert OneLine(lines[i]);
    }
    SplitJoin(lines, CRLF);
    BlankLineAfterHead(lines, rest);
    var head := Join(lines, CRLF);
    var all := head + BLANK_LINE + rest;
    assert all[..|head|] == head && all[|head| + 4..] == rest;
  }

  // ---- The whole message ----

  /** The body that a Content-Length cuts off: the first row of that name counts, if it is a number. */
  function BodyOf(rows: seq<Row>, rest: string): string {
    if rows == [] then rest
    else if CanonicalHeader(rows[0].name) != CONTENT_LENGTH then BodyOf(rows[1..], rest)
    else
      var length := ValueOf(rows[0]);
      if AllDigits(length) && ToNat(length) < |rest| then rest[..ToNat(length)] else rest
  }

  lemma {:induction false} BodyIs(rows: seq<Row>, rest: string)
    requires forall i :: 0 <= i < |rows| ==> ProperRow(rows[i])
    ensures Body(HeadersOf(rows), rest) == BodyOf(rows, rest)
    decreases |rows|
  {
    hide ProperRow, CanonicalHeader, ValueOf, Strip, ToNat, AllDigits;
    if rows != [] {
      var headers := HeadersOf(rows);
      assert headers[1..] == HeadersOf(rows[1..]);
      if CanonicalHeader(rows[0].name) == CONTENT_LENGTH {
        ValueStripped(rows[0]);
        StrippedIsFixed(ValueOf(rows[0]));
        assert rest[..|rest|] == rest;
      } else {
        BodyIs(rows[1..], rest);
      }
    }
  }

  /** Any such message is read: the start line, one header per row under its canonical name with its value unfolded,
      and as the body everything after the blank line, or as much of it as the first Content-Length says. */
  lemma ForeignParses(start: StartLine, rows: seq<Row>, rest: string)
    requires WellFormedStart(start) && forall i :: 0 <= i < |rows| ==> ProperRow(rows[i])
    ensures Parse(PrintForeign(start, rows, rest)) == Some(Message(start, HeadersOf(rows), BodyOf(rows, rest)))
  {
    hide Join, Split, Unfold, ParseStart, ParseHeaders, Body, Before, After, Strip, FirstLine, WellFormedStart,
        ProperRow, Find, AllLines, BodyOf;
    var first := FirstLine(start);
    FirstLineIsPlain(start);
    RowsPlain(rows);
    var lines := [first] + AllLines(rows);
    HeadOfLines(lines, rest);
    UnfoldRows(first, rows);
    FirstLineNotBlank(start);
    StartReadsBack(start);
    RowsRead(rows);
    BodyIs(rows, rest);
    assert ([first] + Logicals(rows))[1..] == Logicals(rows);
  }

  /** Without a Content-Length the body is everything that follows the blank line. */
  lemma {:induction false} NoLengthNoCut(rows: seq<Row>, rest: string)
    requires forall i :: 0 <= i < |rows| ==> CanonicalHeader(rows[i].name) != CONTENT_LENGTH
    ensures BodyOf(rows, rest) == rest
    decreases |rows|
  {
    hide CanonicalHeader;
    if rows != [] {
      NoLengthNoCut(rows[1..], rest);
    }
  }

  // ---- Names ----

  /** The compact forms of section 7.3.3 of RFC 3261 and of later extensions, with the names they stand for. */
  const COMPACT_FORMS: seq<(string, string)> := [
    ("v", "Via"), ("f", "From"), ("t", "To"), ("i", "Call-ID"), ("m", "Contact"), ("c", "Content-Type"),
    ("l", "Content-Length"), ("k", "Supported"), ("s", "Subject"), ("e", "Content-Encoding"),
    ("x", "Session-Expires"), ("o", "Event"), ("u", "Allow-Events"), ("r", "Refer-To"), ("b", "Referred-By")]

  /** A compact form, in upper or lower case, means what its long name means. */
  lemma CompactMeans(k: nat)
    requires k < |COMPACT_FORMS|
    ensures var (short, name) := COMPACT_FORMS[k];
            CanonicalHeader(short) == CanonicalHeader(Upper(short)) == CanonicalHeader(name) == name
  {
    hide CanonicalHeader, Compact, Upper;
    CompactForm(k);
    var (short, name) := COMPACT_FORMS[k];
    OneLetter(short);
    CompactNames(short);
  }

  lemma CompactForm(k: nat)
    requires k < |COMPACT_FORMS|
    ensures var (short, name) := COMPACT_FORMS[k];
            Compact(short) == Some(name) && |short| == 1 && 'a' <= short[0] <= 'z'
  {
  }

  lemma OneLetter(short: string)
    requires Compact(short).Some? && |short| == 1 && 'a' <= short[0] <= 'z'
    ensures CanonicalHeader(short) == CanonicalHeader(Upper(short)) == Compact(short).value
  {
    hide Strip, Compact, TitleCase, Special;
    StrippedIsFixed(short);
    StrippedIsFixed(Upper(short));
    assert Lower(short) == short == Lower(Upper(short));
  }

  /** What a name means: its letters in lower case without the spaces around it, a compact form written out. */
  function Meaning(name: string): string {
    var low := Lower(Strip(name));
    if Compact(low).Some? then Lower(Compact(low).value) else low
  }

  lemma CanonicalMeans(name: string)
    ensures Lower(CanonicalHeader(name)) == Meaning(name) && CanonicalHeader(Meaning(name)) == CanonicalHeader(name)
  {
    hide Strip, TitleCase, Special, Compact, Lower;
    var low := Lower(Strip(name));
    StripIsStripped(name);
    LowerStripped(Strip(name));
    if Compact(low).Some? {
      var v := Compact(low).value;
      CompactNames(low);
      CompactStripped(low);
      LowerStripped(v);
      StrippedIsFixed(v);
      StrippedIsFixed(Lower(v));
    } else {
      StrippedIsFixed(low);
      if Special(low).Some? {
        SpecialMeans(low);
      } else {
        TitleCaseStable(low);
      }
    }
  }

  lemma CompactStripped(low: string)
    requires Compact(low).Some?
    ensures Stripped(Compact(low).value)
  {
  }

  lemma SpecialMeans(low: string)
    requires Special(low).Some?
    ensures Lower(Special(low).value) == low
  {
    hide Lower;
    SpecialLower1();
    SpecialLower2();
    SpecialLower3();
    SpecialLower4();
    SpecialLower5();
    SpecialLower6();
  }

  /** Two names are one header if and only if they mean the same. */
  lemma SameHeaderIff(a: string, b: string)
    ensures CanonicalHeader(a) == CanonicalHeader(b) <==> Meaning(a) == Meaning(b)
  {
    hide CanonicalHeader, Meaning, Lower;
    CanonicalMeans(a);
    CanonicalMeans(b);
  }
}
