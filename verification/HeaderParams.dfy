/** Parameters of header values (sipgram/sip/message.py): `split_params` and `format_params`, which carry branches and
    tags. */
module HeaderParams {
  import opened Options
  import opened Text

  /** One entry of the dictionary; None is a parameter without a value. */
  datatype Param = Param(key: string, value: Option<string>)

  function Flip(quoted: bool, c: char): bool {
    if c == '"' then !quoted else quoted
  }

  /** Whether the scan is inside quotes after a text. */
  function Quoted(text: string, quoted: bool): bool
    decreases |text|
  {
    if text == "" then quoted else Quoted(text[1..], Flip(quoted, text[0]))
  }

  /** The text cut at its semicolons outside quotes. */
  function Cut(text: string, quoted: bool): (parts: seq<string>)
    ensures parts != []
    decreases |text|
  {
    if text == "" then [""]
    else
      var rest := Cut(text[1..], Flip(quoted, text[0]));
      if text[0] == ';' && !quoted then [""] + rest else [[text[0]] + rest[0]] + rest[1..]
  }

  function UnquoteLeft(s: string): (r: string)
    ensures |r| <= |s|
  {
    if s != "" && s[0] == '"' then UnquoteLeft(s[1..]) else s
  }

  function UnquoteRight(s: string): (r: string)
    ensures |r| <= |s|
  {
    if s != "" && s[|s| - 1] == '"' then UnquoteRight(s[..|s| - 1]) else s
  }

  /** strip('"') */
  function Unquote(s: string): (r: string)
    ensures |r| <= |s|
  {
    UnquoteRight(UnquoteLeft(s))
  }

  /** Assignment to a dictionary, which keeps the place of a key it knows. */
  function Put(params: seq<Param>, p: Param): seq<Param> {
    if params == [] then [p]
    else if params[0].key == p.key then [p] + params[1..]
    else [params[0]] + Put(params[1..], p)
  }

  function ReadParam(piece: string): Option<Param> {
    var p := Strip(piece);
    if p == "" then None
    else if '=' in p then Some(Param(Lower(Strip(Before(p, "="))), Some(Unquote(Strip(After(p, "="))))))
    else Some(Param(Lower(p), None))
  }

  function Collect(pieces: seq<string>, params: seq<Param>): seq<Param>
    decreases |pieces|
  {
    if pieces == [] then params
    else
      var p := ReadParam(pieces[0]);
      Collect(pieces[1..], if p.Some? then Put(params, p.value) else params)
  }

  function SplitParams(text: string): (string, seq<Param>) {
    var parts := Cut(text, false);
    (Strip(parts[0]), Collect(parts[1..], []))
  }

  function ParamText(p: Param): string {
    if p.value.None? then p.key else p.key + "=" + p.value.value
  }

  function FormatParams(params: seq<Param>): string {
    if params == [] then "" else ";" + ParamText(params[0]) + FormatParams(params[1..])
  }

  // ---- The loops ----

  lemma CutOneChar(text: string, cur: string, quoted: bool)
    requires text != ""
    ensures var rest := Cut(text[1..], Flip(quoted, text[0]));
            Prepend(cur, Cut(text, quoted))
            == if text[0] == ';' && !quoted then [cur] + Prepend("", rest) else Prepend(cur + [text[0]], rest)
  {
    hide Prepend;
    var rest := Cut(text[1..], Flip(quoted, text[0]));
    PrependCut(cur, rest);
    PrependChar(cur, text[0], rest);
  }

  /** The first loop of `split_params`: quotes are honoured. */
  method CutText(text: string) returns (parts: seq<string>)
    ensures parts == Cut(text, false)
  {
    hide Cut;
    parts := [];
    var cur, quoted := "", false;
    assert text[0..] == text && "" + Cut(text, false)[0] == Cut(text, false)[0];
    for i := 0 to |text|
      invariant parts + Prepend(cur, Cut(text[i..], quoted)) == Cut(text, false)
    {
      var ch := text[i];
      assert text[i..][0] == ch && text[i..][1..] == text[i + 1..];
      CutOneChar(text[i..], cur, quoted);
      if ch == '"' {
        quoted := !quoted;
      }
      if ch == ';' && !quoted {
        parts := parts + [cur];
        cur := "";
      } else {
        cur := cur + [ch];
      }
    }
    assert text[|text|..] == "";
    CutNothing(quoted);
    assert cur + "" == cur;
    parts := parts + [cur];
  }

  lemma CutNothing(quoted: bool)
    ensures Cut("", quoted) == [""]
  {
  }

  /** `split_params` */
  method SplitText(text: string) returns (value: string, params: seq<Param>)
    ensures (value, params) == SplitParams(text)
  {
    hide Strip, ReadParam, Put, Cut;
    var parts := CutText(text);
    params := [];
    assert parts[1..][0..] == parts[1..];
    for i := 1 to |parts|
      invariant Collect(parts[1..], []) == Collect(parts[i..], params)
    {
      assert parts[i..][1..] == parts[i + 1..];
      var p := ReadParam(parts[i]);
      if p.Some? {
        params := Put(params, p.value);
      }
    }
    value := Strip(parts[0]);
  }

  /** `format_params` */
  method Format(params: seq<Param>) returns (out: string)
    ensures out == FormatParams(params)
  {
    hide ParamText;
    out := "";
    assert params[0..] == params;
    for i := 0 to |params|
      invariant FormatParams(params) == out + FormatParams(params[i..])
    {
      assert params[i..][1..] == params[i + 1..];
      out := out + ";" + ParamText(params[i]);
    }
    assert params[|params|..] == [];
  }

  // ---- What can be printed ----

  /** How many quotes stand before position n. */
  function Quotes(text: string, n: nat): nat
    requires n <= |text|
  {
    if n == 0 then 0 else Quotes(text, n - 1) + if text[n - 1] == '"' then 1 else 0
  }

  /** Every semicolon stands inside quotes. */
  predicate Solid(text: string) {
    forall i :: 0 <= i < |text| && text[i] == ';' ==> Quotes(text, i) % 2 == 1
  }

  predicate Closed(text: string) {
    Quotes(text, |text|) % 2 == 0
  }

  /** A value that is left as it is once it has been cut out. */
  predicate PlainValue(v: string) {
    Stripped(v) && Unquote(v) == v
  }

  predicate Readable(p: Param) {
    && '=' !in p.key && Stripped(p.key) && Lower(p.key) == p.key
    && if p.value.None? then p.key != "" else PlainValue(p.value.value)
  }

  predicate Printable(head: string, params: seq<Param>) {
    && Stripped(head) && Solid(head) && (params != [] ==> Closed(head))
    && (forall i :: 0 <= i < |params| ==> Readable(params[i]) && Solid(ParamText(params[i])))
    && (forall i :: 0 <= i < |params| - 1 ==> Closed(ParamText(params[i])))
  }

  predicate DistinctKeys(params: seq<Param>) {
    forall i, j :: 0 <= i < j < |params| ==> params[i].key != params[j].key
  }

  // ---- Cutting ----

  lemma {:induction false} QuotesTail(text: string, n: nat)
    requires 0 < n <= |text|
    ensures Quotes(text, n) == (if text[0] == '"' then 1 else 0) + Quotes(text[1..], n - 1)
    decreases n
  {
    if n > 1 {
      QuotesTail(text, n - 1);
    }
  }

  /** Every semicolon is inside quotes, for a scan that starts inside or outside. */
  predicate SolidFrom(text: string, quoted: bool) {
    forall i :: 0 <= i < |text| && text[i] == ';' ==> (Quotes(text, i) % 2 == 1) == !quoted
  }

  lemma {:induction false} UncutIffSolid(text: string, quoted: bool)
    ensures Cut(text, quoted) == [text] <==> SolidFrom(text, quoted)
    ensures Quoted(text, quoted) <==> (Quotes(text, |text|) % 2 == 1) == !quoted
    decreases |text|
  {
    hide Quotes;
    NoQuotesYet(text);
    if text != "" {
      var rest, now := text[1..], Flip(quoted, text[0]);
      UncutIffSolid(rest, now);
      QuotesTail(text, |text|);
      forall i | 0 < i < |text| ensures (text[i] == ';' ==> (Quotes(text, i) % 2 == 1) == !quoted)
                                       <==> (rest[i - 1] == ';' ==> (Quotes(rest, i - 1) % 2 == 1) == !now) {
        QuotesTail(text, i);
      }
      TailSolid(text, quoted);
      CutFirst(text, quoted);
    }
  }

  lemma NoQuotesYet(text: string)
    ensures Quotes(text, 0) == 0
  {
  }

  lemma CutFirst(text: string, quoted: bool)
    requires text != ""
    ensures Cut(text, quoted) == [text] <==>
            !(text[0] == ';' && !quoted) && Cut(text[1..], Flip(quoted, text[0])) == [text[1..]]
  {
    var rest := Cut(text[1..], Flip(quoted, text[0]));
    assert [text[0]] + text[1..] == text;
    if Cut(text, quoted) == [text] && !(text[0] == ';' && !quoted) {
      assert [text[0]] + rest[0] == text && rest[0] == text[1..];
    }
  }

  lemma TailSolid(text: string, quoted: bool)
    requires text != ""
    requires var rest, now := text[1..], Flip(quoted, text[0]);
             forall i :: 0 < i < |text| ==>
               ((text[i] == ';' ==> (Quotes(text, i) % 2 == 1) == !quoted)
                <==> (rest[i - 1] == ';' ==> (Quotes(rest, i - 1) % 2 == 1) == !now))
    ensures SolidFrom(text, quoted) <==> !(text[0] == ';' && !quoted) && SolidFrom(text[1..], Flip(quoted, text[0]))
  {
    var rest, now := text[1..], Flip(quoted, text[0]);
    if SolidFrom(text, quoted) {
      forall i | 0 <= i < |rest| && rest[i] == ';' ensures (Quotes(rest, i) % 2 == 1) == !now {
        assert text[i + 1] == rest[(i + 1) - 1];
      }
    }
    NoQuotesYet(text);
  }

  lemma SolidMeans(text: string)
    ensures Cut(text, false) == [text] <==> Solid(text)
    ensures !Quoted(text, false) <==> Closed(text)
  {
    UncutIffSolid(text, false);
  }

  lemma Attach(c: char, front: seq<string>, back: seq<string>)
    requires front != []
    ensures [""] + (front + back) == ([""] + front) + back
    ensures [[c] + (front + back)[0]] + (front + back)[1..] == ([[c] + front[0]] + front[1..]) + back
  {
    assert (front + back)[1..] == front[1..] + back;
  }

  lemma {:induction false} CutAfter(a: string, b: string, quoted: bool)
    requires Quoted(a, quoted) == false
    ensures Cut(a + ";" + b, quoted) == Cut(a, quoted) + Cut(b, false)
    decreases |a|
  {
    var all := a + ";" + b;
    if a == "" {
      assert all[0] == ';' && all[1..] == b;
    } else {
      assert all[0] == a[0] && all[1..] == a[1..] + ";" + b;
      var front, back := Cut(a[1..], Flip(quoted, a[0])), Cut(b, false);
      CutAfter(a[1..], b, Flip(quoted, a[0]));
      Attach(a[0], front, back);
    }
  }

  function Texts(params: seq<Param>): (texts: seq<string>)
    ensures |texts| == |params| && forall i :: 0 <= i < |params| ==> texts[i] == ParamText(params[i])
  {
    if params == [] then [] else [ParamText(params[0])] + Texts(params[1..])
  }

  lemma FormatTail(head: string, params: seq<Param>)
    requires params != []
    ensures head + FormatParams(params) == head + ";" + (ParamText(params[0]) + FormatParams(params[1..]))
  {
  }

  /** The cut takes a printed list apart where it was put together. */
  lemma {:induction false} CutFormatted(head: string, params: seq<Param>)
    requires Solid(head) && (params != [] ==> Closed(head))
    requires forall i :: 0 <= i < |params| ==> Solid(ParamText(params[i]))
    requires forall i :: 0 <= i < |params| - 1 ==> Closed(ParamText(params[i]))
    ensures Cut(head + FormatParams(params), false) == [head] + Texts(params)
    decreases |params|
  {
    hide Solid, Closed, Cut, Quoted, ParamText;
    SolidMeans(head);
    if params == [] {
      assert head + "" == head;
    } else {
      var text, rest := ParamText(params[0]), FormatParams(params[1..]);
      CutFormatted(text, params[1..]);
      CutAfter(head, text + rest, false);
      FormatTail(head, params);
    }
  }

  /** What the first piece says about a text that is followed by nothing or by a semicolon. */
  lemma {:induction false} FirstPiece(a: string, rest: string, quoted: bool)
    requires rest == "" || rest[0] == ';'
    requires Cut(a + rest, quoted)[0] == a
    ensures Cut(a, quoted) == [a]
    ensures rest != "" ==> !Quoted(a, quoted) && Cut(a + rest, quoted)[1..] == Cut(rest[1..], false)
    decreases |a|
  {
    if a == "" {
      assert a + rest == rest;
    } else {
      assert (a + rest)[0] == a[0] && (a + rest)[1..] == a[1..] + rest;
      var more := Cut(a[1..] + rest, Flip(quoted, a[0]));
      assert [a[0]] + more[0] == a;
      FirstPiece(a[1..], rest, Flip(quoted, a[0]));
      assert [a[0]] + a[1..] == a;
    }
  }

  lemma {:induction false} CutTells(head: string, params: seq<Param>)
    requires Cut(head + FormatParams(params), false) == [head] + Texts(params)
    ensures Solid(head) && (params != [] ==> Closed(head))
    ensures forall i :: 0 <= i < |params| ==> Solid(ParamText(params[i]))
    ensures forall i :: 0 <= i < |params| - 1 ==> Closed(ParamText(params[i]))
    decreases |params|
  {
    hide Solid, Closed, Cut, Quoted, ParamText;
    FirstPiece(head, FormatParams(params), false);
    SolidMeans(head);
    if params != [] {
      var text, rest := ParamText(params[0]), FormatParams(params[1..]);
      FormatTail(head, params);
      assert FormatParams(params)[1..] == text + rest;
      assert ([head] + Texts(params))[1..] == Texts(params) == [text] + Texts(params[1..]);
      CutTells(text, params[1..]);
      forall i | 0 < i < |params|
          ensures Solid(ParamText(params[i])) && (i < |params| - 1 ==> Closed(ParamText(params[i]))) {
        assert params[1..][i - 1] == params[i];
      }
    }
  }

  // ---- Reading one parameter ----

  lemma {:induction false} StripTail(lead: string, v: string)
    requires lead != "" && !IsSpace(lead[0]) && !IsSpace(lead[|lead| - 1])
    ensures Strip(lead + v) == lead + StripRight(v)
    decreases |v|
  {
    assert StripLeft(lead + v) == lead + v;
    if v != "" && IsSpace(v[|v| - 1]) {
      assert (lead + v)[..|lead + v| - 1] == lead + v[..|v| - 1];
      StripTail(lead, v[..|v| - 1]);
      assert StripLeft(lead + v[..|v| - 1]) == lead + v[..|v| - 1];
    } else if v == "" {
      assert lead + v == lead;
    }
  }

  lemma {:induction false} StripLead(key: string, rest: string)
    requires rest != "" && !IsSpace(rest[0])
    ensures StripLeft(key + rest) == StripLeft(key) + rest
    decreases |key|
  {
    if key == "" {
      assert key + rest == rest;
    } else if IsSpace(key[0]) {
      assert (key + rest)[1..] == key[1..] + rest;
      StripLead(key[1..], rest);
    }
  }

  lemma {:induction false} StripRightFirst(v: string)
    ensures Strip(StripRight(v)) == Strip(v)
    decreases |v|
  {
    if v != "" && IsSpace(v[|v| - 1]) {
      StripRightFirst(v[..|v| - 1]);
      StripDropsLast(v);
    }
  }

  lemma {:induction false} StripDropsLast(v: string)
    requires v != "" && IsSpace(v[|v| - 1])
    ensures Strip(v[..|v| - 1]) == Strip(v)
    decreases |v|
  {
    if IsSpace(v[0]) {
      if |v| > 1 {
        StripDropsLast(v[1..]);
        assert v[1..][..|v| - 2] == v[..|v| - 1][1..];
      }
    }
  }

  lemma {:induction false} StripLeftOnce(s: string)
    ensures StripLeft(StripLeft(s)) == StripLeft(s) && |StripLeft(s)| <= |s|
    ensures |StripLeft(s)| == |s| ==> StripLeft(s) == s
    ensures '=' !in s ==> '=' !in StripLeft(s)
    decreases |s|
  {
    if s != "" && IsSpace(s[0]) {
      StripLeftOnce(s[1..]);
    }
  }

  lemma {:induction false} StripRightShrinks(s: string)
    ensures |StripRight(s)| <= |s| && (|StripRight(s)| == |s| ==> StripRight(s) == s)
    decreases |s|
  {
    if s != "" && IsSpace(s[|s| - 1]) {
      StripRightShrinks(s[..|s| - 1]);
    }
  }

  lemma StripShrinks(s: string)
    ensures |Strip(s)| <= |s| && (|Strip(s)| == |s| ==> Strip(s) == s && Stripped(s))
  {
    StripLeftOnce(s);
    StripRightShrinks(StripLeft(s));
    StripIsStripped(s);
  }

  /** Stripping `key=v` strips the outer ends. */
  lemma StripPair(key: string, v: string)
    ensures Strip(key + "=" + v) == StripLeft(key) + "=" + StripRight(v)
  {
    hide StripLeft, StripRight;
    StripLead(key, "=" + v);
    assert key + "=" + v == key + ("=" + v);
    var lead := StripLeft(key) + "=";
    assert StripLeft(key) + ("=" + v) == lead + v;
    StripLeftEnds(key);
    StripTail(lead, v);
    StripLeftOnce(key);
    StripUnfold(key + "=" + v, lead + v);
  }

  lemma StripUnfold(s: string, t: string)
    requires StripLeft(s) == t
    ensures Strip(s) == Strip(t)
  {
    StripLeftOnce(s);
  }

  /** What a piece says, up to its first equals sign and from there on. */
  lemma ReadsValue(key: string, v: string)
    requires '=' !in key
    ensures ReadParam(key + "=" + v) == Some(Param(Lower(Strip(key)), Some(Unquote(Strip(v)))))
  {
    hide Lower, Unquote, Strip, StripLeft, StripRight;
    StripPair(key, v);
    StripLeftOnce(key);
    var p := Strip(key + "=" + v);
    PartitionAt(StripLeft(key), "=", StripRight(v));
    assert p[|StripLeft(key)|] == '=';
    StripUnfold(key, StripLeft(key));
    StripRightFirst(v);
  }

  /** Where the first equals sign is. */
  lemma {:induction false} AtFirstEquals(text: string) returns (key: string, v: string)
    requires '=' in text
    ensures '=' !in key && text == key + "=" + v
    decreases |text|
  {
    if text[0] == '=' {
      key, v := "", text[1..];
      assert text == [text[0]] + text[1..];
    } else {
      assert text == [text[0]] + text[1..];
      key, v := AtFirstEquals(text[1..]);
      key := [text[0]] + key;
    }
  }

  /** Reading never makes a parameter longer than its piece. */
  lemma ReadShrinks(piece: string)
    requires ReadParam(piece).Some?
    ensures |ParamText(ReadParam(piece).value)| <= |piece|
  {
    hide Unquote, Lower, Strip;
    StripShrinks(piece);
    if '=' in piece {
      var key, v := AtFirstEquals(piece);
      ReadsValue(key, v);
      StripShrinks(key);
      StripShrinks(v);
    } else {
      NoNewEquals(piece);
    }
  }

  lemma NoNewEquals(s: string)
    requires '=' !in s
    ensures '=' !in Strip(s)
  {
    StripLeftOnce(s);
    StripRightSubset(StripLeft(s));
  }

  lemma {:induction false} StripRightSubset(s: string)
    requires '=' !in s
    ensures '=' !in StripRight(s)
    decreases |s|
  {
    if s != "" && IsSpace(s[|s| - 1]) {
      StripRightSubset(s[..|s| - 1]);
    }
  }

  lemma LowerOfShorter(s: string)
    ensures Lower(Strip(s)) == s <==> Stripped(s) && Lower(s) == s
  {
    hide Strip, Lower;
    StripShrinks(s);
    if Stripped(s) {
      StrippedIsFixed(s);
    }
  }

  lemma UnquoteOfShorter(v: string)
    ensures Unquote(Strip(v)) == v <==> PlainValue(v)
  {
    hide Strip, Unquote;
    StripShrinks(v);
    if Stripped(v) {
      StrippedIsFixed(v);
    }
  }

  lemma ReadsBackIffReadable(p: Param)
    ensures ReadParam(ParamText(p)) == Some(p) <==> Readable(p)
  {
    hide Strip, Lower, Unquote, Stripped, PlainValue;
    LowerOfShorter(p.key);
    if p.value.None? {
      if '=' in p.key {
        var key, v := AtFirstEquals(p.key);
        ReadsValue(key, v);
      } else {
        NoNewEquals(p.key);
        BlankReads(p.key);
      }
    } else if '=' in p.key {
      var key, v := AtFirstEquals(p.key);
      ReadsValue(key, v + "=" + p.value.value);
      assert p.key + "=" + p.value.value == key + "=" + (v + "=" + p.value.value);
      StripShrinks(key);
    } else {
      ReadsValue(p.key, p.value.value);
      UnquoteOfShorter(p.value.value);
    }
  }

  lemma BlankReads(key: string)
    requires '=' !in Strip(key)
    ensures ReadParam(key) == if Strip(key) == "" then None else Some(Param(Lower(Strip(key)), None))
    ensures Lower("") == "" && Strip("") == ""
  {
  }

  // ---- Filling the dictionary ----

  lemma {:induction false} PutNew(params: seq<Param>, p: Param)
    requires forall i :: 0 <= i < |params| ==> params[i].key != p.key
    ensures Put(params, p) == params + [p]
  {
    if params != [] {
      PutNew(params[1..], p);
    }
  }

  lemma {:induction false} CollectTexts(before: seq<Param>, params: seq<Param>)
    requires DistinctKeys(before + params) && forall i :: 0 <= i < |params| ==> Readable(params[i])
    ensures Collect(Texts(params), before) == before + params
    decreases |params|
  {
    hide Readable, ReadParam, ParamText, Put;
    if params == [] {
      assert before + params == before;
    } else {
      var p := params[0];
      ReadsBackIffReadable(p);
      forall i | 0 <= i < |before| ensures before[i].key != p.key {
        assert (before + params)[i] == before[i] && (before + params)[|before|] == p;
      }
      PutNew(before, p);
      assert before + params == (before + [p]) + params[1..];
      CollectTexts(before + [p], params[1..]);
      assert Texts(params)[1..] == Texts(params[1..]);
    }
  }

  /** The room that parameters take in print, separators included, and that pieces take. */
  function Printed(params: seq<Param>): nat {
    if params == [] then 0 else 1 + |ParamText(params[0])| + Printed(params[1..])
  }

  function Room(pieces: seq<string>): nat {
    if pieces == [] then 0 else 1 + |pieces[0]| + Room(pieces[1..])
  }

  lemma {:induction false} PrintedSnoc(params: seq<Param>, p: Param)
    ensures Printed(params + [p]) == Printed(params) + 1 + |ParamText(p)|
    decreases |params|
  {
    if params == [] {
      assert [] + [p] == [p] && [p][1..] == [];
    } else {
      assert (params + [p])[1..] == params[1..] + [p];
      PrintedSnoc(params[1..], p);
    }
  }

  /** An entry takes the room of its text, less if it replaces another. */
  lemma {:induction false} PutRoom(params: seq<Param>, p: Param)
    ensures Printed(Put(params, p)) <= Printed(params) + 1 + |ParamText(p)|
    ensures Put(params, p) == params + [p] || Printed(Put(params, p)) < Printed(params) + 1 + |ParamText(p)|
    decreases |params|
  {
    hide ParamText;
    if params == [] {
      assert [p][1..] == [] && [] + [p] == [p];
    } else if params[0].key == p.key {
      assert ([p] + params[1..])[1..] == params[1..];
    } else {
      PutRoom(params[1..], p);
      assert ([params[0]] + Put(params[1..], p))[1..] == Put(params[1..], p);
      assert [params[0]] + (params[1..] + [p]) == params + [p];
    }
  }

  /** The entries that pieces make take no more room than the pieces; if they take as much, every piece made one
      entry, as long as itself, and in order. */
  predicate OneEach(pieces: seq<string>, params: seq<Param>, all: seq<Param>) {
    && |all| == |params| + |pieces| && params <= all
    && forall i :: 0 <= i < |pieces| ==>
         ReadParam(pieces[i]) == Some(all[|params| + i]) && |ParamText(all[|params| + i])| == |pieces[i]|
  }

  lemma {:induction false} CollectRoom(pieces: seq<string>, params: seq<Param>)
    ensures Printed(Collect(pieces, params)) <= Printed(params) + Room(pieces)
    ensures Printed(Collect(pieces, params)) == Printed(params) + Room(pieces) ==>
              OneEach(pieces, params, Collect(pieces, params))
    decreases |pieces|
  {
    hide ReadParam, Put, ParamText, Printed, OneEach;
    if pieces == [] {
      NoneEach(params);
      NoRoom();
    } else {
      var p := ReadParam(pieces[0]);
      RoomTail(pieces);
      if p.None? {
        CollectRoom(pieces[1..], params);
      } else {
        ReadShrinks(pieces[0]);
        PutRoom(params, p.value);
        PrintedSnoc(params, p.value);
        CollectRoom(pieces[1..], Put(params, p.value));
        if Printed(Collect(pieces, params)) == Printed(params) + Room(pieces) {
          EachOnce(pieces, params, p.value, Collect(pieces, params));
        }
      }
    }
  }

  lemma NoneEach(params: seq<Param>)
    ensures OneEach([], params, params)
  {
  }

  lemma NoRoom()
    ensures Room([]) == 0
  {
  }

  lemma RoomTail(pieces: seq<string>)
    requires pieces != []
    ensures Room(pieces) == 1 + |pieces[0]| + Room(pieces[1..])
  {
  }

  lemma EachOnce(pieces: seq<string>, params: seq<Param>, p: Param, all: seq<Param>)
    requires pieces != [] && ReadParam(pieces[0]) == Some(p) && |ParamText(p)| == |pieces[0]|
    requires OneEach(pieces[1..], params + [p], all)
    ensures OneEach(pieces, params, all)
  {
    hide ReadParam, ParamText;
    assert params <= params + [p] <= all;
    assert all[|params|] == (params + [p])[|params|] == p;
    forall i | 0 <= i < |pieces|
      ensures ReadParam(pieces[i]) == Some(all[|params| + i]) && |ParamText(all[|params| + i])| == |pieces[i]| {
      if i > 0 {
        assert pieces[1..][i - 1] == pieces[i];
      }
    }
  }

  // ---- Pieces and the text they came from ----

  function Glue(pieces: seq<string>): string
    requires pieces != []
  {
    if |pieces| == 1 then pieces[0] else pieces[0] + ";" + Glue(pieces[1..])
  }

  lemma {:induction false} CutGlues(text: string, quoted: bool)
    ensures Glue(Cut(text, quoted)) == text
    decreases |text|
  {
    if text != "" {
      var rest := Cut(text[1..], Flip(quoted, text[0]));
      CutGlues(text[1..], Flip(quoted, text[0]));
      assert [text[0]] + text[1..] == text;
      if text[0] == ';' && !quoted {
        assert ([""] + rest)[1..] == rest;
      } else {
        GlueOnto(text[0], rest);
      }
    }
  }

  lemma GlueOnto(c: char, pieces: seq<string>)
    requires pieces != []
    ensures Glue([[c] + pieces[0]] + pieces[1..]) == [c] + Glue(pieces)
  {
    var all := [[c] + pieces[0]] + pieces[1..];
    assert all[1..] == pieces[1..];
    if |pieces| > 1 {
      assert ([c] + pieces[0]) + ";" + Glue(pieces[1..]) == [c] + (pieces[0] + ";" + Glue(pieces[1..]));
    }
  }

  lemma {:induction false} FormattedGlues(head: string, params: seq<Param>)
    ensures head + FormatParams(params) == Glue([head] + Texts(params))
    ensures |FormatParams(params)| == Printed(params)
    decreases |params|
  {
    hide ParamText;
    var all := [head] + Texts(params);
    if params == [] {
      assert head + "" == head;
    } else {
      FormatTail(head, params);
      FormattedGlues(ParamText(params[0]), params[1..]);
      assert all[1..] == [ParamText(params[0])] + Texts(params[1..]);
    }
  }

  lemma {:induction false} GlueSize(pieces: seq<string>)
    requires pieces != []
    ensures |Glue(pieces)| == |pieces[0]| + Room(pieces[1..])
    decreases |pieces|
  {
    if |pieces| == 1 {
      assert pieces[1..] == [];
    } else {
      GlueSize(pieces[1..]);
    }
  }

  lemma {:induction false} GlueApart(a: seq<string>, b: seq<string>)
    requires a != [] && |a| == |b| && Glue(a) == Glue(b) && forall i :: 0 <= i < |a| ==> |a[i]| == |b[i]|
    ensures a == b
    decreases |a|
  {
    if |a| == 1 {
      assert a == [a[0]] && b == [b[0]];
    } else {
      var n := |a[0]|;
      assert Glue(a)[..n] == a[0] && Glue(b)[..n] == b[0];
      assert Glue(a)[n + 1..] == Glue(a[1..]) && Glue(b)[n + 1..] == Glue(b[1..]);
      GlueApart(a[1..], b[1..]);
      assert a == [a[0]] + a[1..] && b == [b[0]] + b[1..];
    }
  }

  /** If everything reads back, the text was cut where it was put together, and every parameter was read from its own
      piece. */
  lemma ReadBackPieces(head: string, params: seq<Param>)
    requires SplitParams(head + FormatParams(params)) == (head, params)
    ensures Cut(head + FormatParams(params), false) == [head] + Texts(params) && Stripped(head)
    ensures forall i :: 0 <= i < |params| ==> ReadParam(ParamText(params[i])) == Some(params[i])
  {
    hide Strip, Cut, Collect, Room, Printed, Glue, ReadParam, ParamText;
    var text := head + FormatParams(params);
    var parts, want := Cut(text, false), [head] + Texts(params);
    CutGlues(text, false);
    GlueSize(parts);
    FormattedGlues(head, params);
    StripShrinks(parts[0]);
    StripIsStripped(parts[0]);
    CollectRoom(parts[1..], []);
    EmptyPrint();
    forall i | 0 <= i < |want| ensures i < |parts| && |want[i]| == |parts[i]| {
      if i > 0 {
        assert params[i - 1] == params[0 + (i - 1)] && parts[1..][i - 1] == parts[i];
      }
    }
    GlueApart(want, parts);
    forall i | 0 <= i < |params| ensures ReadParam(ParamText(params[i])) == Some(params[i]) {
      assert parts[1..][i] == want[i + 1];
    }
  }

  lemma EmptyPrint()
    ensures Printed([]) == 0
  {
  }

  /** The parameters of a value, printed and read again, are the same in the same order if and only if every one is
      readable, no semicolon stands outside quotes, and quotes are closed before the next parameter. The keys of a
      dictionary are distinct. */
  lemma ParamsRoundTrip(head: string, params: seq<Param>)
    requires DistinctKeys(params)
    ensures SplitParams(head + FormatParams(params)) == (head, params) <==> Printable(head, params)
  {
    hide Cut, Collect, Readable, Solid, Closed, ReadParam, ParamText, Strip, Stripped, DistinctKeys;
    forall i | 0 <= i < |params| ensures ReadParam(ParamText(params[i])) == Some(params[i]) <==> Readable(params[i]) {
      ReadsBackIffReadable(params[i]);
    }
    if SplitParams(head + FormatParams(params)) == (head, params) {
      ReadBackPieces(head, params);
      CutTells(head, params);
    }
    if Printable(head, params) {
      CutFormatted(head, params);
      StrippedIsFixed(head);
      assert [] + params == params;
      CollectTexts([], params);
      assert ([head] + Texts(params))[1..] == Texts(params);
    }
  }

  // ---- One value ----

  /** Nothing that the scan looks at. */
  predicate Free(text: string) {
    forall i :: 0 <= i < |text| ==> text[i] != ';' && text[i] != '"'
  }

  predicate PlainKey(key: string) {
    Stripped(key) && Lower(key) == key && Free(key) && '=' !in key
  }

  lemma {:induction false} QuotesAfter(a: string, b: string, n: nat)
    requires Free(a) && n <= |b|
    ensures Quotes(a + b, |a| + n) == Quotes(b, n)
    decreases |a| + n
  {
    if n > 0 {
      QuotesAfter(a, b, n - 1);
    } else if a != "" {
      var shorter := a[..|a| - 1];
      QuotesPrefix(shorter, [a[|a| - 1]] + b, |shorter|);
      QuotesAfter(shorter, [a[|a| - 1]] + b, 0);
      assert shorter + ([a[|a| - 1]] + b) == a + b;
      assert Quotes(a + b, |a| - 1) == Quotes([a[|a| - 1]] + b, 0) == 0;
    }
  }

  lemma {:induction false} QuotesPrefix(a: string, b: string, n: nat)
    requires n <= |a|
    ensures Quotes(a + b, n) == Quotes(a, n)
  {
    if n > 0 {
      QuotesPrefix(a, b, n - 1);
    }
  }

  lemma SolidAfter(a: string, b: string)
    requires Free(a)
    ensures Solid(a + b) <==> Solid(b)
  {
    hide Quotes;
    forall i | 0 <= i < |b| ensures Quotes(a + b, |a| + i) == Quotes(b, i) && (a + b)[|a| + i] == b[i] {
      QuotesAfter(a, b, i);
    }
    if Solid(b) {
      forall j | 0 <= j < |a + b| && (a + b)[j] == ';' ensures Quotes(a + b, j) % 2 == 1 {
        if j >= |a| {
          assert (a + b)[|a| + (j - |a|)] == b[j - |a|];
        }
      }
    }
  }

  /** A value comes back as it was if and only if every semicolon in it stands inside its own quotes and it has no space
      or quote at either end. */
  lemma ValueSurvivesIffPlain(head: string, key: string, v: string)
    requires Stripped(head) && Solid(head) && Closed(head) && PlainKey(key)
    ensures SplitParams(head + FormatParams([Param(key, Some(v))])) == (head, [Param(key, Some(v))])
            <==> PlainValue(v) && Solid(v)
  {
    hide Solid, Closed, Lower, Stripped, PlainValue, SplitParams, FormatParams;
    var p := Param(key, Some(v));
    ParamsRoundTrip(head, [p]);
    SolidAfter(key + "=", v);
    assert ParamText([p][0]) == key + "=" + v;
  }

  predicate NoQuotes(v: string) {
    forall i :: 0 <= i < |v| ==> v[i] != '"'
  }

  lemma {:induction false} NoneBefore(v: string, n: nat)
    requires NoQuotes(v) && n <= |v|
    ensures Quotes(v, n) == 0
  {
    if n > 0 {
      NoneBefore(v, n - 1);
    }
  }

  lemma SolidWithoutQuotes(v: string)
    requires NoQuotes(v)
    ensures Solid(v) <==> Free(v)
  {
    hide Quotes;
    forall i | 0 <= i < |v| ensures Quotes(v, i) == 0 {
      NoneBefore(v, i);
    }
  }

  lemma SolidInQuotes(v: string)
    requires NoQuotes(v)
    ensures Solid("\"" + v + "\"")
  {
    var all := "\"" + v + "\"";
    hide Quotes;
    forall i | 0 < i <= |v| ensures Quotes(all, i) == 1 {
      QuotesTail(all, i);
      assert all[1..] == v + "\"";
      QuotesPrefix(v, "\"", i - 1);
      NoneBefore(v, i - 1);
    }
  }

  lemma UnquoteQuoted(v: string)
    requires NoQuotes(v)
    ensures Unquote(v) == v && Unquote("\"" + v + "\"") == v
  {
    var all := "\"" + v + "\"";
    assert all[1..] == v + "\"";
    if v == "" {
      assert UnquoteLeft("\"") == UnquoteLeft("") by {
        assert "\""[1..] == "";
      }
    } else {
      assert UnquoteLeft(v + "\"") == v + "\"";
      assert (v + "\"")[..|v|] == v;
    }
  }

  /** A quoted value is read whatever is between the quotes, but it is printed without them: it survives if and only
      if it has no semicolon and no space at either end. */
  lemma QuotedValueSurvives(head: string, key: string, v: string)
    requires Stripped(head) && Solid(head) && Closed(head) && PlainKey(key) && NoQuotes(v)
    ensures SplitParams(head + ";" + (key + "=" + ("\"" + v + "\""))) == (head, [Param(key, Some(v))])
    ensures SplitParams(head + FormatParams([Param(key, Some(v))])) == (head, [Param(key, Some(v))])
            <==> Stripped(v) && Free(v)
  {
    hide PlainKey, Cut, Collect, ReadParam, Unquote, Strip, Free, NoQuotes, Solid, Closed;
    var quoted := "\"" + v + "\"";
    SolidInQuotes(v);
    KeyMeans(key);
    SolidAfter(key + "=", quoted);
    SolidMeans(key + "=" + quoted);
    SolidMeans(head);
    StrippedIsFixed(head);
    StrippedIsFixed(quoted);
    StrippedIsFixed(key);
    CutAfter(head, key + "=" + quoted, false);
    ReadsValue(key, quoted);
    UnquoteQuoted(v);
    OneRead(key + "=" + quoted, Param(key, Some(v)));
    assert ([head] + [key + "=" + quoted])[1..] == [key + "=" + quoted];
    ValueSurvivesIffPlain(head, key, v);
    SolidWithoutQuotes(v);
  }

  lemma KeyMeans(key: string)
    requires PlainKey(key)
    ensures Free(key + "=") && Stripped(key) && Lower(key) == key && '=' !in key
  {
  }

  lemma OneRead(piece: string, p: Param)
    requires ReadParam(piece) == Some(p)
    ensures Collect([piece], []) == [p]
  {
    hide ReadParam;
    assert [piece][1..] == [];
  }
}
