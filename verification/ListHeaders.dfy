/** Comma-separated header values (sipgram/sip/message.py): `_split_commas` and `get_all`. */
module ListHeaders {
  import opened Text
  import opened HeaderNames
  import opened SipMessages

  /** Where the scan stands: inside quotes, and how deep inside angle brackets. */
  datatype Scan = Scan(quoted: bool, depth: int)

  const START := Scan(false, 0)

  function Next(scan: Scan, c: char): Scan {
    if c == '"' then scan.(quoted := !scan.quoted)
    else if c == '<' && !scan.quoted then scan.(depth := scan.depth + 1)
    else if c == '>' && !scan.quoted then scan.(depth := scan.depth - 1)
    else scan
  }

  /** The scan state after a whole text. */
  function End(text: string, scan: Scan): Scan
    decreases |text|
  {
    if text == "" then scan else End(text[1..], Next(scan, text[0]))
  }

  predicate Balanced(text: string) {
    End(text, START) == START
  }

  /** The text cut at its top-level commas. */
  function Pieces(text: string, scan: Scan): (parts: seq<string>)
    ensures parts != []
    decreases |text|
  {
    if text == "" then [""]
    else
      var now := Next(scan, text[0]);
      var rest := Pieces(text[1..], now);
      if text[0] == ',' && now == START then [""] + rest else [[text[0]] + rest[0]] + rest[1..]
  }

  function NonBlank(parts: seq<string>): seq<string> {
    if parts == [] then [] else (if Strip(parts[0]) != "" then [parts[0]] else []) + NonBlank(parts[1..])
  }

  function StripAll(parts: seq<string>): (r: seq<string>)
    ensures |r| == |parts|
  {
    seq(|parts|, i requires 0 <= i < |parts| => Strip(parts[i]))
  }

  /** The values of one header row. */
  function Items(text: string): seq<string> {
    StripAll(NonBlank(Pieces(text, START)))
  }

  predicate IsListHeader(name: string) {
    name in ["Via", "Record-Route", "Route", "Contact", "Allow", "Supported"]
  }

  function GetAll(headers: seq<Header>, name: string): seq<string>
    decreases |headers|
  {
    if headers == [] then []
    else
      var last := headers[|headers| - 1];
      GetAll(headers[..|headers| - 1], name)
      + (if last.name != name then [] else if IsListHeader(name) then Items(last.value) else [last.value])
  }

  // ---- Cutting distributes over a comma that follows balanced text ----

  lemma {:induction false} PiecesOfPair(a: string, b: string, scan: Scan)
    requires End(a, scan) == START
    ensures Pieces(a + "," + b, scan) == Pieces(a, scan) + Pieces(b, START)
    decreases |a|
  {
    var all := a + "," + b;
    if a == "" {
      assert all[0] == ',' && all[1..] == b;
    } else {
      var now := Next(scan, a[0]);
      assert all[0] == a[0] && all[1..] == a[1..] + "," + b;
      PiecesOfPair(a[1..], b, now);
    }
  }

  lemma {:induction false} NonBlankConcat(a: seq<string>, b: seq<string>)
    ensures NonBlank(a + b) == NonBlank(a) + NonBlank(b)
    decreases |a|
  {
    hide Strip;
    if a == [] {
      assert a + b == b;
    } else {
      assert (a + b)[1..] == a[1..] + b;
      NonBlankConcat(a[1..], b);
    }
  }

  lemma StripAllConcat(a: seq<string>, b: seq<string>)
    ensures StripAll(a + b) == StripAll(a) + StripAll(b)
  {
    hide Strip;
  }

  /** After balanced text a comma separates. */
  lemma ItemsOfPair(a: string, b: string)
    requires Balanced(a)
    ensures Items(a + "," + b) == Items(a) + Items(b)
  {
    hide Strip;
    PiecesOfPair(a, b, START);
    NonBlankConcat(Pieces(a, START), Pieces(b, START));
    StripAllConcat(NonBlank(Pieces(a, START)), NonBlank(Pieces(b, START)));
  }

  lemma LeadingSpace(s: string)
    ensures Strip(" " + s) == Strip(s)
  {
    assert (" " + s)[1..] == s;
    assert StripLeft(" " + s) == StripLeft(s);
  }

  lemma ItemsAfterSpace(b: string)
    ensures Items(" " + b) == Items(b)
  {
    var parts, spaced := Pieces(b, START), Pieces(" " + b, START);
    assert (" " + b)[1..] == b;
    assert spaced == [" " + parts[0]] + parts[1..];
    LeadingSpace(parts[0]);
    hide Strip;
    assert NonBlank(spaced)[..] == (if Strip(parts[0]) != "" then [" " + parts[0]] else []) + NonBlank(parts[1..]) by {
      assert spaced[1..] == parts[1..];
    }
    if Strip(parts[0]) != "" {
      StripAllConcat([" " + parts[0]], NonBlank(parts[1..]));
      StripAllConcat([parts[0]], NonBlank(parts[1..]));
    }
  }

  lemma {:induction false} EndConcat(a: string, b: string, scan: Scan)
    ensures End(a + b, scan) == End(b, End(a, scan))
    decreases |a|
  {
    if a == "" {
      assert a + b == b;
    } else {
      assert (a + b)[1..] == a[1..] + b;
      EndConcat(a[1..], b, Next(scan, a[0]));
    }
  }

  function Count(text: string, c: char): nat {
    if text == "" then 0
    else Count(text[..|text| - 1], c) + if text[|text| - 1] == c then 1 else 0
  }

  /** How often the character stands outside quotes. */
  function Unquoted(text: string, c: char): nat {
    if text == "" then 0
    else
      var front := text[..|text| - 1];
      Unquoted(front, c) + if text[|text| - 1] == c && Count(front, '"') % 2 == 0 then 1 else 0
  }

  lemma {:induction false} ScanCounts(text: string)
    ensures End(text, START) == Scan(Count(text, '"') % 2 == 1, Unquoted(text, '<') - Unquoted(text, '>'))
  {
    if text != "" {
      var front, last := text[..|text| - 1], text[|text| - 1];
      assert text == front + [last] && [last][1..] == "";
      ScanCounts(front);
      EndConcat(front, [last], START);
      assert End([last], End(front, START)) == End([last][1..], Next(End(front, START), last));
    }
  }

  /** Balanced text closes every quote, and has as many closing as opening brackets outside quotes. */
  lemma BalancedMeans(text: string)
    ensures Balanced(text) <==> Count(text, '"') % 2 == 0 && Unquoted(text, '<') == Unquoted(text, '>')
  {
    hide End, Count, Unquoted;
    ScanCounts(text);
  }

  // ---- ... and only then ----

  lemma {:induction false} LastPieceHolds(a: string, scan: Scan)
    requires End(a, scan) != START
    ensures scan != START || Strip(Pieces(a, scan)[|Pieces(a, scan)| - 1]) != ""
    decreases |a|
  {
    if a != "" {
      var now := Next(scan, a[0]);
      var rest := Pieces(a[1..], now);
      LastPieceHolds(a[1..], now);
      if scan == START {
        var parts := Pieces(a, scan);
        if now != START {
          if |rest| == 1 {
            StripKeeps(parts[0], 0);
          } else {
            LastPieceOfMany(a[1..], now);
          }
        } else if |rest| == 1 && !(a[0] == ',' && now == START) {
          LongerNotBlank(a[0], rest[0]);
        }
      }
    }
  }

  lemma LongerNotBlank(c: char, s: string)
    requires Strip(s) != ""
    ensures Strip([c] + s) != ""
  {
    StripLeftEnds(s);
    StripRightEnds(StripLeft(s));
    var t := Strip(s);
    assert t[0] == StripLeft(s)[0] && !IsSpace(t[0]);
    InStripLeft(s);
    var i :| 0 <= i < |s| && s[i] == t[0];
    assert ([c] + s)[i + 1] == s[i];
    StripKeeps([c] + s, i + 1);
  }

  lemma {:induction false} InStripLeft(s: string)
    requires StripLeft(s) != ""
    ensures StripLeft(s)[0] in s
    decreases |s|
  {
    if IsSpace(s[0]) {
      InStripLeft(s[1..]);
    }
  }

  /** Once a cut was made, the last piece starts at the start state. */
  lemma {:induction false} LastPieceOfMany(a: string, scan: Scan)
    requires End(a, scan) != START && |Pieces(a, scan)| > 1
    ensures Strip(Pieces(a, scan)[|Pieces(a, scan)| - 1]) != ""
    decreases |a|
  {
    var now := Next(scan, a[0]);
    if a[0] == ',' && now == START {
      LastPieceHolds(a[1..], START);
    } else {
      LastPieceOfMany(a[1..], now);
    }
  }

  lemma OneLetter(scan: Scan)
    ensures Pieces("x", scan) == ["x"]
  {
    var rest := Pieces("x"[1..], scan);
    assert "x"[1..] == "" && rest == [""];
    assert Pieces("x", scan) == [['x'] + rest[0]] + rest[1..];
    assert ['x'] + rest[0] == "x" && rest[1..] == [];
  }

  predicate Continues(p: seq<string>, q: seq<string>) {
    && |p| == |q| > 0
    && (forall i :: 0 <= i < |q| - 1 ==> p[i] == q[i])
    && p[|q| - 1] == q[|q| - 1] + ",x"
  }

  lemma ContinuesLonger(c: char, p: seq<string>, q: seq<string>)
    requires Continues(p, q)
    ensures Continues([""] + p, [""] + q)
    ensures Continues([[c] + p[0]] + p[1..], [[c] + q[0]] + q[1..])
  {
    if |q| == 1 {
      assert [c] + (q[0] + ",x") == ([c] + q[0]) + ",x";
    }
  }

  /** Inside quotes or brackets the comma joins the last piece. */
  lemma {:induction false} NoCut(a: string, scan: Scan)
    requires End(a, scan) != START
    ensures Continues(Pieces(a + ",x", scan), Pieces(a, scan))
    decreases |a|
  {
    var all := a + ",x";
    if a == "" {
      assert all == ",x" && all[1..] == "x";
      OneLetter(scan);
      assert [','] + "x" == "" + ",x";
    } else {
      assert all[0] == a[0] && all[1..] == a[1..] + ",x";
      var now := Next(scan, a[0]);
      NoCut(a[1..], now);
      ContinuesLonger(a[0], Pieces(all[1..], now), Pieces(a[1..], now));
      hide Continues, Next;
    }
  }

  lemma {:induction false} CountNonBlank(p: seq<string>, q: seq<string>)
    requires |p| == |q| > 0 && forall i :: 0 <= i < |p| - 1 ==> p[i] == q[i]
    requires Strip(p[|p| - 1]) != "" && Strip(q[|q| - 1]) != ""
    ensures |NonBlank(p)| == |NonBlank(q)|
    decreases |p|
  {
    hide Strip;
    if |p| == 1 {
      assert p[1..] == [] && q[1..] == [];
    } else {
      CountNonBlank(p[1..], q[1..]);
    }
  }

  /** A comma after `a` separates, whatever follows, exactly when `a` closes its quotes and, outside them, its
      brackets. */
  lemma CommaSeparatesIffBalanced(a: string)
    ensures (forall b :: Items(a + "," + b) == Items(a) + Items(b))
            <==> Count(a, '"') % 2 == 0 && Unquoted(a, '<') == Unquoted(a, '>')
  {
    hide Items, Count, Unquoted, Balanced;
    BalancedMeans(a);
    if Balanced(a) {
      forall b ensures Items(a + "," + b) == Items(a) + Items(b) {
        ItemsOfPair(a, b);
      }
    } else {
      OpenTextSwallows(a);
    }
  }

  lemma OpenTextSwallows(a: string)
    requires !Balanced(a)
    ensures Items(a + "," + "x") != Items(a) + Items("x")
  {
    assert a + "," + "x" == a + ",x";
    var p, q := Pieces(a + ",x", START), Pieces(a, START);
    NoCut(a, START);
    LastPieceHolds(a, START);
    var last := p[|p| - 1];
    assert last[|last| - 1] == 'x';
    StripKeeps(last, |last| - 1);
    CountNonBlank(p, q);
    OneItem();
    hide Strip, Pieces;
    assert |Items(a + ",x")| == |Items(a)|;
  }

  lemma OneItem()
    ensures Items("x") == ["x"]
  {
    OneLetter(START);
    assert Stripped("x");
    StrippedIsFixed("x");
    assert ["x"][1..] == [] && NonBlank(["x"]) == ["x"] + NonBlank([]) == ["x"];
  }

  // ---- One row or several ----

  function Rows(name: string, values: seq<string>): (rows: seq<Header>)
    ensures |rows| == |values|
  {
    seq(|values|, i requires 0 <= i < |values| => Header(name, values[i]))
  }

  lemma {:induction false} ItemsOfJoin(name: string, values: seq<string>)
    requires values != [] && IsListHeader(name)
    requires forall i :: 0 <= i < |values| - 1 ==> Balanced(values[i])
    ensures GetAll(Rows(name, values), name) == Items(JoinLeft(values))
    decreases |values|
  {
    hide Items, IsListHeader;
    var n := |values| - 1;
    var rows := Rows(name, values);
    assert rows[..n] == Rows(name, values[..n]) && rows[n] == Header(name, values[n]);
    if n == 0 {
      assert GetAll(rows[..0], name) == [];
    } else {
      ItemsOfJoin(name, values[..n]);
      JoinLeftBalanced(values[..n]);
      ItemsOfPair(JoinLeft(values[..n]), " " + values[n]);
      ItemsAfterSpace(values[n]);
      assert JoinLeft(values) == JoinLeft(values[..n]) + "," + (" " + values[n]);
    }
  }

  /** ", ".join(values). */
  function JoinLeft(values: seq<string>): string
    requires values != []
    decreases |values|
  {
    if |values| == 1 then values[0] else JoinLeft(values[..|values| - 1]) + ", " + values[|values| - 1]
  }

  lemma {:induction false} JoinLeftBalanced(values: seq<string>)
    requires values != [] && forall i :: 0 <= i < |values| ==> Balanced(values[i])
    ensures Balanced(JoinLeft(values))
    decreases |values|
  {
    if |values| > 1 {
      var n := |values| - 1;
      JoinLeftBalanced(values[..n]);
      EndConcat(JoinLeft(values[..n]) + ", ", values[n], START);
      EndConcat(JoinLeft(values[..n]), ", ", START);
      CommaSpace();
    }
  }

  lemma CommaSpace()
    ensures End(", ", START) == START
  {
    assert ", "[1..] == " " && " "[1..] == "";
    assert End(" ", START) == End("", START);
  }

  lemma {:induction false} GetAllConcat(a: seq<Header>, b: seq<Header>, name: string)
    ensures GetAll(a + b, name) == GetAll(a, name) + GetAll(b, name)
    decreases |b|
  {
    hide Items, IsListHeader;
    if b == [] {
      assert a + b == a;
    } else {
      var n := |b| - 1;
      assert (a + b)[..|a + b| - 1] == a + b[..n] && (a + b)[|a + b| - 1] == b[n];
      GetAllConcat(a, b[..n], name);
    }
  }

  /** A list header reads the same whether its balanced values come as one comma-joined row or as
      several rows, anywhere among the other headers. */
  lemma OneRowOrMany(before: seq<Header>, values: seq<string>, after: seq<Header>, name: string)
    requires values != [] && name in ["Via", "Record-Route", "Route", "Contact", "Allow", "Supported"]
    requires forall i :: 0 <= i < |values| - 1 ==> Balanced(values[i])
    ensures GetAll(before + Rows(name, values) + after, name)
            == GetAll(before + [Header(name, JoinLeft(values))] + after, name)
  {
    var one := [Header(name, JoinLeft(values))];
    ItemsOfJoin(name, values);
    assert GetAll(one, name) == Items(JoinLeft(values)) by {
      assert one[..0] == [] && GetAll(one[..0], name) == [];
    }
    hide GetAll, Items, IsListHeader, JoinLeft;
    GetAllConcat(before + Rows(name, values), after, name);
    GetAllConcat(before, Rows(name, values), name);
    GetAllConcat(before + one, after, name);
    GetAllConcat(before, one, name);
  }

  /** The values under a name as they stand. */
  function Whole(headers: seq<Header>, name: string): seq<string> {
    if headers == [] then []
    else (if headers[0].name == name then [headers[0].value] else []) + Whole(headers[1..], name)
  }

  lemma {:induction false} GetAllWhole(headers: seq<Header>, name: string)
    requires !IsListHeader(name)
    ensures GetAll(headers, name) == Whole(headers, name)
  {
    hide Items, IsListHeader;
    if headers != [] {
      assert headers == headers[..1] + headers[1..] && headers[..1][..0] == [];
      GetAllConcat(headers[..1], headers[1..], name);
      GetAllWhole(headers[1..], name);
    }
  }

  /** No other header is cut at its commas. */
  lemma OthersWhole(headers: seq<Header>, name: string)
    requires name != "Via" && name != "Record-Route" && name != "Route"
    requires name != "Contact" && name != "Allow" && name != "Supported"
    ensures GetAll(headers, name) == Whole(headers, name)
  {
    hide GetAll, Whole;
    GetAllWhole(headers, name);
  }

  // ---- The loops ----

  /** One turn of the loop: `cur` is the open piece, the rest of the text is still to be cut. */
  lemma CutOneChar(text: string, cur: string, scan: Scan)
    requires text != ""
    ensures var now := Next(scan, text[0]);
            Prepend(cur, Pieces(text, scan))
            == if text[0] == ',' && now == START then [cur] + Prepend("", Pieces(text[1..], now))
               else Prepend(cur + [text[0]], Pieces(text[1..], now))
  {
    hide Prepend;
    var now := Next(scan, text[0]);
    var rest := Pieces(text[1..], now);
    PrependCut(cur, rest);
    PrependChar(cur, text[0], rest);
  }

  /** `_split_commas`. */
  method SplitCommas(value: string) returns (kept: seq<string>)
    ensures kept == NonBlank(Pieces(value, START))
  {
    var parts: seq<string> := [];
    var cur := "";
    var quoted, depth := false, 0;
    assert value[0..] == value && Prepend("", Pieces(value, START)) == Pieces(value, START) by {
      assert "" + Pieces(value, START)[0] == Pieces(value, START)[0];
    }
    hide Pieces, Prepend, NonBlank;
    for i := 0 to |value|
      invariant parts + Prepend(cur, Pieces(value[i..], Scan(quoted, depth))) == Pieces(value, START)
    {
      var ch := value[i];
      assert value[i..][0] == ch && value[i..][1..] == value[i + 1..];
      ghost var before := Scan(quoted, depth);
      if ch == '"' {
        quoted := !quoted;
      } else if ch == '<' && !quoted {
        depth := depth + 1;
      } else if ch == '>' && !quoted {
        depth := depth - 1;
      }
      assert Scan(quoted, depth) == Next(before, ch);
      CutOneChar(value[i..], cur, before);
      if ch == ',' && !quoted && depth == 0 {
        parts := parts + [cur];
        cur := "";
      } else {
        cur := cur + [ch];
      }
    }
    assert value[|value|..] == "";
    CutAtEnd(cur, Scan(quoted, depth));
    parts := parts + [cur];
    kept := KeepNonBlank(parts);
  }

  lemma CutAtEnd(cur: string, scan: Scan)
    ensures Prepend(cur, Pieces("", scan)) == [cur]
  {
    assert cur + "" == cur;
  }

  /** The closing list comprehension. */
  method KeepNonBlank(parts: seq<string>) returns (kept: seq<string>)
    ensures kept == NonBlank(parts)
  {
    hide Strip;
    kept := [];
    for i := 0 to |parts|
      invariant kept == NonBlank(parts[..i])
    {
      assert parts[..i + 1] == parts[..i] + [parts[i]];
      NonBlankConcat(parts[..i], [parts[i]]);
      assert [parts[i]][1..] == [];
      if Strip(parts[i]) != "" {
        kept := kept + [parts[i]];
      }
    }
    assert parts[..|parts|] == parts;
  }

  /** `get_all` on a canonical name. */
  method CollectAll(headers: seq<Header>, name: string) returns (out: seq<string>)
    ensures out == GetAll(headers, CanonicalHeader(name))
  {
    var cname := CanonicalHeader(name);
    out := [];
    for i := 0 to |headers|
      invariant out == GetAll(headers[..i], cname)
    {
      var h := headers[i];
      assert headers[..i + 1][..i] == headers[..i];
      if h.name == cname {
        if IsListHeader(cname) {
          var parts := SplitCommas(h.value);
          out := out + StripAll(parts);
        } else {
          out := out + [h.value];
        }
      }
    }
    assert headers[..|headers|] == headers;
  }
}
