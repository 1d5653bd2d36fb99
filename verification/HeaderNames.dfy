/** Header names (sipgram/sip/message.py): compact forms, special spellings and title case. */
module HeaderNames {
  import opened Options
  import opened Text

  function Compact(low: string): Option<string> {
    if low == "v" then Some("Via") else if low == "f" then Some("From") else if low == "t" then Some("To")
    else if low == "i" then Some("Call-ID") else if low == "m" then Some("Contact")
    else if low == "c" then Some("Content-Type") else if low == "l" then Some("Content-Length")
    else if low == "k" then Some("Supported") else if low == "s" then Some("Subject")
    else if low == "e" then Some("Content-Encoding") else if low == "x" then Some("Session-Expires")
    else if low == "o" then Some("Event") else if low == "u" then Some("Allow-Events")
    else if low == "r" then Some("Refer-To") else if low == "b" then Some("Referred-By")
    else None
  }

  function Special(low: string): Option<string> {
    if low == "call-id" then Some("Call-ID") else if low == "cseq" then Some("CSeq")
    else if low == "www-authenticate" then Some("WWW-Authenticate")
    else if low == "content-length" then Some("Content-Length")
    else if low == "content-type" then Some("Content-Type")
    else if low == "proxy-authenticate" then Some("Proxy-Authenticate")
    else if low == "proxy-authorization" then Some("Proxy-Authorization")
    else if low == "record-route" then Some("Record-Route") else if low == "max-forwards" then Some("Max-Forwards")
    else if low == "user-agent" then Some("User-Agent") else if low == "session-expires" then Some("Session-Expires")
    else if low == "min-se" then Some("Min-SE") else if low == "p-asserted-identity" then Some("P-Asserted-Identity")
    else if low == "rack" then Some("RAck") else if low == "rseq" then Some("RSeq")
    else if low == "mime-version" then Some("MIME-Version")
    else None
  }

  function CapitalizeAll(parts: seq<string>): (r: seq<string>)
    ensures |r| == |parts|
  {
    seq(|parts|, i requires 0 <= i < |parts| => Capitalize(parts[i]))
  }

  function TitleCase(low: string): string {
    Join(CapitalizeAll(Split(low, "-")), "-")
  }

  function Canonical(low: string): string {
    if Compact(low).Some? then Compact(low).value
    else if Special(low).Some? then Special(low).value
    else TitleCase(low)
  }

  function CanonicalHeader(name: string): string {
    Canonical(Lower(Strip(name)))
  }

  lemma LowerOfCapital(s: string)
    ensures Lower(Capitalize(s)) == Lower(s)
  {
    if s != "" {
      var c := Capitalize(s);
      forall i | 0 <= i < |s| ensures LowerChar(c[i]) == LowerChar(s[i]) {
        if i > 0 {
          assert c[i] == Lower(s[1..])[i - 1] == LowerChar(s[i]);
        }
      }
    }
  }

  lemma {:induction false} LowerOfJoin(parts: seq<string>)
    ensures Lower(Join(CapitalizeAll(parts), "-")) == Lower(Join(parts, "-"))
    decreases |parts|
  {
    if |parts| == 1 {
      LowerOfCapital(parts[0]);
    } else if |parts| > 1 {
      LowerOfCapital(parts[0]);
      LowerOfJoin(parts[1..]);
      assert CapitalizeAll(parts)[1..] == CapitalizeAll(parts[1..]);
      var a, b := Join(CapitalizeAll(parts[1..]), "-"), Join(parts[1..], "-");
      LowerConcat(Capitalize(parts[0]), a);
      LowerConcat(parts[0], b);
    }
  }

  lemma LowerConcat(a: string, b: string)
    ensures Lower(a + "-" + b) == Lower(a) + "-" + Lower(b)
  {
  }

  lemma {:induction false} JoinOfSplit(s: string)
    ensures Join(Split(s, "-"), "-") == s
    decreases |s|
  {
    var found := Find(s, "-");
    if found.Some? {
      var i := found.value;
      FindMeans(s, "-");
      var rest := s[i + 1..];
      JoinOfSplit(rest);
      assert s == s[..i] + "-" + rest;
      assert Split(s, "-")[1..] == Split(rest, "-");
    }
  }

  lemma SpaceAndCase(c: char)
    ensures IsSpace(LowerChar(c)) <==> IsSpace(c)
    ensures IsSpace(UpperChar(c)) <==> IsSpace(c)
    ensures LowerChar(LowerChar(c)) == LowerChar(c)
  {
  }

  lemma LowerStripped(s: string)
    ensures Stripped(Lower(s)) <==> Stripped(s)
    ensures Lower(Lower(s)) == Lower(s)
  {
    if s != "" {
      SpaceAndCase(s[0]);
      SpaceAndCase(s[|s| - 1]);
    }
    assert forall i :: 0 <= i < |s| ==> LowerChar(LowerChar(s[i])) == LowerChar(s[i]);
  }

  /** Title-casing an already lower-case, stripped name does not change what it canonicalises to. */
  lemma TitleCaseStable(low: string)
    requires Stripped(low) && Lower(low) == low
    ensures Strip(TitleCase(low)) == TitleCase(low) && Lower(TitleCase(low)) == low
  {
    LowerOfJoin(Split(low, "-"));
    JoinOfSplit(low);
    LowerStripped(TitleCase(low));
    StrippedIsFixed(TitleCase(low));
  }

  /** A name with its own row in a table. */
  lemma TableNames(low: string)
    requires Special(low).Some? || Compact(low).Some?
    ensures var v := if Compact(low).Some? then Compact(low).value else Special(low).value;
            CanonicalHeader(v) == v
  {
    if Compact(low).Some? {
      CompactNames(low);
    } else {
      SpecialNames(low);
    }
  }

  lemma SpecialLower1()
    ensures Lower("Call-ID") == "call-id"
    ensures Lower("CSeq") == "cseq"
    ensures Lower("WWW-Authenticate") == "www-authenticate"
    ensures Lower("Content-Length") == "content-length"
  {
  }

  lemma SpecialLower2()
    ensures Lower("Content-Type") == "content-type"
    ensures Lower("Proxy-Authenticate") == "proxy-authenticate"
  {
  }

  lemma SpecialLower3()
    ensures Lower("Proxy-Authorization") == "proxy-authorization"
    ensures Lower("Record-Route") == "record-route"
  {
  }

  lemma SpecialLower4()
    ensures Lower("Max-Forwards") == "max-forwards"
    ensures Lower("User-Agent") == "user-agent"
    ensures Lower("Session-Expires") == "session-expires"
    ensures Lower("Min-SE") == "min-se"
  {
  }

  lemma SpecialLower5()
    ensures Lower("P-Asserted-Identity") == "p-asserted-identity"
    ensures Lower("RAck") == "rack"
  {
  }

  lemma SpecialLower6()
    ensures Lower("RSeq") == "rseq"
    ensures Lower("MIME-Version") == "mime-version"
  {
  }

  lemma SpecialNames(low: string)
    requires Special(low).Some?
    ensures CanonicalHeader(Special(low).value) == Special(low).value
  {
    hide Lower;
    SpecialLower1();
    SpecialLower2();
    SpecialLower3();
    SpecialLower4();
    SpecialLower5();
    SpecialLower6();
    var v := Special(low).value;
    assert Stripped(v);
    StrippedIsFixed(v);
    assert Lower(v) == low;
  }

  lemma OneWord(low: string)
    requires '-' !in low
    ensures TitleCase(low) == Capitalize(low)
  {
    SplitJoin([low], "-");
    assert Join([low], "-") == low;
    assert CapitalizeAll([low]) == [Capitalize(low)];
  }

  lemma TwoWords(a: string, b: string)
    requires '-' !in a && '-' !in b
    ensures TitleCase(a + "-" + b) == Capitalize(a) + "-" + Capitalize(b)
  {
    hide Capitalize;
    SplitJoin([a, b], "-");
    JoinTwo(a, b);
    assert CapitalizeAll([a, b]) == [Capitalize(a), Capitalize(b)];
    JoinTwo(Capitalize(a), Capitalize(b));
  }

  lemma JoinTwo(a: string, b: string)
    ensures Join([a, b], "-") == a + "-" + b
  {
    assert [a, b][1..] == [b];
    assert Join([b], "-") == b;
  }

  /** A word and how it is capitalised. */
  predicate Word(low: string, v: string) {
    Capitalize(low) == v && Lower(low) == low && '-' !in low && v != "" && !IsSpace(v[0]) && !IsSpace(v[|v| - 1])
  }

  lemma WordFixed(low: string, v: string)
    requires Word(low, v) && Compact(low).None? && Special(low).None?
    ensures CanonicalHeader(v) == v
  {
    OneWord(low);
    LowerOfCapital(low);
    StrippedIsFixed(v);
  }

  lemma WordsFixed(a: string, va: string, b: string, vb: string)
    requires Word(a, va) && Word(b, vb) && Compact(a + "-" + b).None? && Special(a + "-" + b).None?
    ensures CanonicalHeader(va + "-" + vb) == va + "-" + vb
  {
    hide Lower, Capitalize;
    TwoWords(a, b);
    StrippedIsFixed(va + "-" + vb);
    LowerConcat(va, vb);
    LowerOfCapital(a);
    LowerOfCapital(b);
  }

  lemma Words1()
    ensures Word("via", "Via") && Word("from", "From") && Word("to", "To") && Word("contact", "Contact")
  {
  }

  lemma Words2()
    ensures Word("supported", "Supported") && Word("subject", "Subject")
  {
  }

  lemma Words3()
    ensures Word("content", "Content") && Word("encoding", "Encoding")
  {
  }

  lemma Words4()
    ensures Word("event", "Event") && Word("events", "Events") && Word("by", "By")
  {
  }

  lemma Words5()
    ensures Word("allow", "Allow") && Word("refer", "Refer") && Word("referred", "Referred")
  {
  }

  lemma Dashes()
    ensures "Content" + "-" + "Encoding" == "Content-Encoding" && "Allow" + "-" + "Events" == "Allow-Events"
    ensures "Refer" + "-" + "To" == "Refer-To" && "Referred" + "-" + "By" == "Referred-By"
  {
  }

  lemma OneWordNames()
    ensures forall v :: v in {"Via", "From", "To", "Contact", "Supported", "Subject", "Event"} ==>
            CanonicalHeader(v) == v
  {
    hide Word, CanonicalHeader;
    Words1();
    Words2();
    Words4();
    WordFixed("via", "Via");
    WordFixed("from", "From");
    WordFixed("to", "To");
    WordFixed("contact", "Contact");
    WordFixed("supported", "Supported");
    WordFixed("subject", "Subject");
    WordFixed("event", "Event");
  }

  lemma TwoWordNames()
    ensures forall v :: v in {"Content-Encoding", "Allow-Events", "Refer-To", "Referred-By"} ==> CanonicalHeader(v) == v
  {
    hide Word, CanonicalHeader, Compact, Special;
    Words1();
    Words3();
    Words4();
    Words5();
    Dashes();
    NotInTable("content", "encoding");
    NotInTable("allow", "events");
    NotInTable("refer", "to");
    NotInTable("referred", "by");
    WordsFixed("content", "Content", "encoding", "Encoding");
    WordsFixed("allow", "Allow", "events", "Events");
    WordsFixed("refer", "Refer", "to", "To");
    WordsFixed("referred", "Referred", "by", "By");
  }

  lemma NotInTable(a: string, b: string)
    requires (a, b) in {("content", "encoding"), ("allow", "events"), ("refer", "to"), ("referred", "by")}
    ensures Special(a + "-" + b).None? && Compact(a + "-" + b).None?
  {
    var low := a + "-" + b;
    assert |low| in {16, 12, 8, 11} && low[0] in {'c', 'a', 'r'};
  }

  lemma CompactNames(low: string)
    requires Compact(low).Some?
    ensures CanonicalHeader(Compact(low).value) == Compact(low).value
  {
    hide CanonicalHeader;
    OneWordNames();
    TwoWordNames();
    SpecialNames("call-id");
    SpecialNames("content-type");
    SpecialNames("content-length");
    SpecialNames("session-expires");
  }

  /** Canonical names are fixed points: storing, printing and reading a name back changes it no more. */
  lemma CanonicalIdempotent(name: string)
    ensures CanonicalHeader(CanonicalHeader(name)) == CanonicalHeader(name)
  {
    var low := Lower(Strip(name));
    StripIsStripped(name);
    LowerStripped(Strip(name));
    if Compact(low).Some? || Special(low).Some? {
      TableNames(low);
    } else {
      TitleCaseStable(low);
    }
  }

  lemma CompactIsStripped(low: string)
    requires Compact(low).Some?
    ensures Stripped(Compact(low).value)
  {
  }

  lemma SpecialIsStripped(low: string)
    requires Special(low).Some?
    ensures Stripped(Special(low).value)
  {
  }

  lemma CanonicalIsStripped(name: string)
    ensures Stripped(CanonicalHeader(name))
  {
    var low := Lower(Strip(name));
    hide Compact, Special, Stripped, Strip, Lower, TitleCase;
    StripIsStripped(name);
    LowerStripped(Strip(name));
    if Compact(low).Some? {
      CompactIsStripped(low);
    } else if Special(low).Some? {
      SpecialIsStripped(low);
    } else {
      TitleCaseStable(low);
      StripIsStripped(TitleCase(low));
    }
  }

  lemma TableLength(low: string)
    ensures Compact(low) == Some("Content-Length") ==> low == "l"
    ensures Special(low) == Some("Content-Length") ==> low == "content-length"
    ensures Special("content-length") == Some("Content-Length") && Compact("l") == Some("Content-Length")
  {
  }

  /** The only names that mean Content-Length. */
  lemma CanonicalLength(name: string)
    requires CanonicalHeader(name) == "Content-Length"
    ensures Lower(Strip(name)) == "l" || Lower(Strip(name)) == "content-length"
  {
    var low := Lower(Strip(name));
    TableLength(low);
    SpecialLower1();
    hide Compact, Special, Stripped, Strip, Lower, TitleCase;
    StripIsStripped(name);
    LowerStripped(Strip(name));
    if Compact(low).None? && Special(low).None? {
      TitleCaseStable(low);
    }
  }
}
