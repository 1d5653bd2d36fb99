/** The string operations of Python that the SIP and SDP code leans on, over ASCII text. Each octet
    of a message is one char; octets above 127 are never space, digit or letter here. */
module Text {
  import opened Options

  const CRLF := "\r\n"

  // ---- Characters ----

  predicate IsSpace(c: char) {
    c == ' ' || '\t' <= c <= '\r' || '\U{1c}' <= c <= '\U{1f}'
  }

  predicate IsDigit(c: char) {
    '0' <= c <= '9'
  }

  function LowerChar(c: char): char {
    if 'A' <= c <= 'Z' then (c as int + 32) as char else c
  }

  function UpperChar(c: char): char {
    if 'a' <= c <= 'z' then (c as int - 32) as char else c
  }

  function Lower(s: string): (r: string)
    ensures |r| == |s|
  {
    seq(|s|, i requires 0 <= i < |s| => LowerChar(s[i]))
  }

  function Upper(s: string): (r: string)
    ensures |r| == |s|
  {
    seq(|s|, i requires 0 <= i < |s| => UpperChar(s[i]))
  }

  /** str.capitalize. */
  function Capitalize(s: string): (r: string)
    ensures |r| == |s|
  {
    if s == "" then "" else Upper(s[..1]) + Lower(s[1..])
  }

  // ---- Strip ----

  function StripLeft(s: string): string {
    if s != "" && IsSpace(s[0]) then StripLeft(s[1..]) else s
  }

  function StripRight(s: string): string {
    if s != "" && IsSpace(s[|s| - 1]) then StripRight(s[..|s| - 1]) else s
  }

  function Strip(s: string): string {
    StripRight(StripLeft(s))
  }

  predicate Stripped(s: string) {
    s == "" || (!IsSpace(s[0]) && !IsSpace(s[|s| - 1]))
  }

  lemma StrippedIsFixed(s: string)
    requires Stripped(s)
    ensures Strip(s) == s
  {
  }

  lemma {:induction false} StripLeftEnds(s: string)
    ensures StripLeft(s) == "" || !IsSpace(StripLeft(s)[0])
    ensures StripLeft(s) != "" ==> s != "" && StripLeft(s)[|StripLeft(s)| - 1] == s[|s| - 1]
    decreases |s|
  {
    if s != "" && IsSpace(s[0]) {
      StripLeftEnds(s[1..]);
    }
  }

  lemma {:induction false} StripRightEnds(s: string)
    ensures StripRight(s) == "" || !IsSpace(StripRight(s)[|StripRight(s)| - 1])
    ensures StripRight(s) != "" ==> s != "" && StripRight(s)[0] == s[0]
    decreases |s|
  {
    if s != "" && IsSpace(s[|s| - 1]) {
      StripRightEnds(s[..|s| - 1]);
    }
  }

  lemma StripIsStripped(s: string)
    ensures Stripped(Strip(s))
  {
    StripLeftEnds(s);
    StripRightEnds(StripLeft(s));
  }

  /** Stripping loses no character that is not a space. */
  lemma StripKeeps(s: string, i: nat)
    requires i < |s| && !IsSpace(s[i])
    ensures s[i] in Strip(s)
  {
    StripLeftKeeps(s, i);
    var left := StripLeft(s);
    var j :| 0 <= j < |left| && left[j] == s[i];
    StripRightKeeps(left, j);
  }

  lemma {:induction false} StripLeftKeeps(s: string, i: nat)
    requires i < |s| && !IsSpace(s[i])
    ensures s[i] in StripLeft(s)
    decreases |s|
  {
    if IsSpace(s[0]) {
      StripLeftKeeps(s[1..], i - 1);
    }
  }

  lemma {:induction false} StripRightKeeps(s: string, i: nat)
    requires i < |s| && !IsSpace(s[i])
    ensures s[i] in StripRight(s)
    decreases |s|
  {
    if IsSpace(s[|s| - 1]) {
      assert s[..|s| - 1][i] == s[i];
      StripRightKeeps(s[..|s| - 1], i);
    }
  }

  lemma StripKeepsFirst(s: string)
    requires s != "" && !IsSpace(s[0])
    ensures Strip(s) != "" && Strip(s)[0] == s[0]
  {
    assert StripLeft(s) == s;
    StripRightKeeps(s, 0);
    StripRightEnds(s);
  }

  /** A single space in front of a stripped text disappears. */
  lemma StripSpace(s: string)
    requires Stripped(s)
    ensures Strip(" " + s) == s
  {
    assert (" " + s)[1..] == s;
    assert StripLeft(" " + s) == StripLeft(s) == s;
  }

  // ---- Search and split ----

  /** The first position where `mark` occurs. */
  function Find(s: string, mark: string): (r: Option<nat>)
    requires mark != ""
    ensures r.Some? ==> r.value + |mark| <= |s|
    decreases |s|
  {
    if |s| < |mark| then None
    else if s[..|mark|] == mark then Some(0)
    else match Find(s[1..], mark)
      case None => None
      case Some(i) => Some(i + 1)
  }

  predicate OccursAt(s: string, mark: string, i: nat) {
    i + |mark| <= |s| && s[i..i + |mark|] == mark
  }

  predicate Lacks(s: string, mark: string) {
    forall i :: 0 <= i <= |s| ==> !OccursAt(s, mark, i)
  }

  lemma DropThenSlice(s: string, i: nat, n: nat)
    requires 0 < i && i + n <= |s|
    ensures s[1..][i - 1..i - 1 + n] == s[i..i + n]
  {
    var a, b := s[1..][i - 1..i - 1 + n], s[i..i + n];
    forall k | 0 <= k < n ensures a[k] == b[k] {
      assert a[k] == s[1..][i - 1 + k] == s[i + k];
    }
  }

  /** What the search means: the least occurrence, or none at all. */
  lemma {:induction false} FindMeans(s: string, mark: string)
    requires mark != ""
    ensures Find(s, mark).None? ==> Lacks(s, mark)
    ensures Find(s, mark).Some? ==> OccursAt(s, mark, Find(s, mark).value)
                                    && forall i :: 0 <= i < Find(s, mark).value ==> !OccursAt(s, mark, i)
    decreases |s|
  {
    if |s| >= |mark| && s[..|mark|] != mark {
      FindMeans(s[1..], mark);
      forall i: nat | 0 < i <= |s| ensures OccursAt(s, mark, i) <==> OccursAt(s[1..], mark, i - 1) {
        if i + |mark| <= |s| {
          DropThenSlice(s, i, |mark|);
        }
      }
      assert !OccursAt(s, mark, 0);
    } else if |s| >= |mark| {
      assert s[0..|mark|] == mark;
    }
  }

  lemma FindIs(s: string, mark: string, i: nat)
    requires mark != "" && OccursAt(s, mark, i)
    requires forall j :: 0 <= j < i ==> !OccursAt(s, mark, j)
    ensures Find(s, mark) == Some(i)
  {
    FindMeans(s, mark);
  }

  lemma FindNone(s: string, mark: string)
    requires mark != "" && Lacks(s, mark)
    ensures Find(s, mark) == None
  {
    FindMeans(s, mark);
  }

  /** What was found stays where it is when more text arrives. */
  lemma FindStable(s: string, more: string, mark: string)
    requires mark != "" && Find(s, mark).Some?
    ensures Find(s + more, mark) == Find(s, mark)
  {
    FindMeans(s, mark);
    var i := Find(s, mark).value;
    assert (s + more)[i..i + |mark|] == s[i..i + |mark|];
    forall j: nat | j < i ensures !OccursAt(s + more, mark, j) {
      assert (s + more)[j..j + |mark|] == s[j..j + |mark|];
      assert !OccursAt(s, mark, j);
    }
    FindIs(s + more, mark, i);
  }

  lemma OccursShifted(front: string, tail: string, mark: string, j: nat)
    requires |front| <= j
    ensures OccursAt(front + tail, mark, j) <==> OccursAt(tail, mark, j - |front|)
  {
    if j + |mark| <= |front + tail| {
      var a, b := (front + tail)[j..j + |mark|], tail[j - |front|..j - |front| + |mark|];
      forall k | 0 <= k < |mark| ensures a[k] == b[k] {
        assert a[k] == (front + tail)[j + k] == tail[j - |front| + k];
      }
    }
  }

  /** Text in front that starts no occurrence moves the first one along. */
  lemma FindShifts(front: string, tail: string, mark: string)
    requires mark != "" && Find(tail, mark).Some?
    requires forall j :: 0 <= j < |front| ==> !OccursAt(front + tail, mark, j)
    ensures Find(front + tail, mark) == Some(|front| + Find(tail, mark).value)
  {
    hide Find, OccursAt;
    FindMeans(tail, mark);
    var at := |front| + Find(tail, mark).value;
    OccursShifted(front, tail, mark, at);
    forall j: nat | j < at ensures !OccursAt(front + tail, mark, j) {
      if j >= |front| {
        OccursShifted(front, tail, mark, j);
      }
    }
    FindIs(front + tail, mark, at);
  }

  function Split(s: string, mark: string): (parts: seq<string>)
    requires mark != ""
    ensures parts != []
    decreases |s|
  {
    match Find(s, mark)
    case None => [s]
    case Some(i) => [s[..i]] + Split(s[i + |mark|..], mark)
  }

  function Join(parts: seq<string>, mark: string): string {
    if parts == [] then "" else if |parts| == 1 then parts[0] else parts[0] + mark + Join(parts[1..], mark)
  }

  /** Splitting undoes joining when no part holds the first character of the separator. */
  lemma {:induction false} SplitJoin(parts: seq<string>, mark: string)
    requires mark != "" && parts != []
    requires forall i :: 0 <= i < |parts| ==> mark[0] !in parts[i]
    ensures Split(Join(parts, mark), mark) == parts
    decreases |parts|
  {
    if |parts| == 1 {
      LacksChar(parts[0], mark);
      FindNone(parts[0], mark);
    } else {
      var rest := Join(parts[1..], mark);
      FindAfter(parts[0], mark, rest);
      var s := Join(parts, mark);
      assert s == parts[0] + mark + rest;
      assert s[..|parts[0]|] == parts[0] && s[|parts[0]| + |mark|..] == rest;
      SplitJoin(parts[1..], mark);
    }
  }

  lemma LacksChar(s: string, mark: string)
    requires mark != "" && mark[0] !in s
    ensures Lacks(s, mark)
  {
    forall i: nat | i <= |s| ensures !OccursAt(s, mark, i) {
      if i + |mark| <= |s| {
        assert s[i] in s;
        assert s[i..i + |mark|][0] == s[i];
      }
    }
  }

  lemma FindAfter(s: string, mark: string, rest: string)
    requires mark != "" && mark[0] !in s
    ensures Find(s + mark + rest, mark) == Some(|s|)
  {
    var all := s + mark + rest;
    assert all[|s|..|s| + |mark|] == mark;
    forall j: nat | j < |s| ensures !OccursAt(all, mark, j) {
      if j + |mark| <= |all| {
        assert all[j..j + |mark|][0] == all[j] == s[j];
        assert s[j] in s;
      }
    }
    FindIs(all, mark, |s|);
  }

  /** str.partition: the text before the first `mark`, and the text after it ("" when there is none). */
  function Before(s: string, mark: string): string
    requires mark != ""
  {
    match Find(s, mark)
    case None => s
    case Some(i) => s[..i]
  }

  function After(s: string, mark: string): string
    requires mark != ""
  {
    match Find(s, mark)
    case None => ""
    case Some(i) => s[i + |mark|..]
  }

  lemma PartitionAt(s: string, mark: string, rest: string)
    requires mark != "" && mark[0] !in s
    ensures Before(s + mark + rest, mark) == s && After(s + mark + rest, mark) == rest
  {
    FindAfter(s, mark, rest);
    var all := s + mark + rest;
    assert all[..|s|] == s && all[|s| + |mark|..] == rest;
  }

  // ---- Cutting a text ----

  /** The text joins the first piece. */
  function Prepend(text: string, parts: seq<string>): seq<string>
    requires parts != []
  {
    [text + parts[0]] + parts[1..]
  }

  lemma PrependCut(cur: string, rest: seq<string>)
    requires rest != []
    ensures Prepend(cur, [""] + rest) == [cur] + Prepend("", rest)
  {
    assert cur + "" == cur && "" + rest[0] == rest[0];
    assert ([""] + rest)[1..] == rest;
  }

  lemma PrependChar(cur: string, c: char, rest: seq<string>)
    requires rest != []
    ensures Prepend(cur, [[c] + rest[0]] + rest[1..]) == Prepend(cur + [c], rest)
  {
    assert cur + ([c] + rest[0]) == (cur + [c]) + rest[0];
    assert ([[c] + rest[0]] + rest[1..])[1..] == rest[1..];
  }

  // ---- Decimal numbers ----

  /** str.isdigit on ASCII. */
  predicate AllDigits(s: string) {
    s != "" && forall i :: 0 <= i < |s| ==> IsDigit(s[i])
  }

  function ToNat(s: string): nat
    requires forall i :: 0 <= i < |s| ==> IsDigit(s[i])
  {
    if s == "" then 0
    else assert IsDigit(s[|s| - 1]); 10 * ToNat(s[..|s| - 1]) + (s[|s| - 1] as nat - '0' as nat)
  }

  function Decimal(n: nat): (s: string)
    ensures AllDigits(s)
  {
    if n < 10 then [('0' as int + n) as char] else Decimal(n / 10) + [('0' as int + n % 10) as char]
  }

  lemma {:induction false} DecimalRoundTrip(n: nat)
    ensures ToNat(Decimal(n)) == n
  {
    if n < 10 {
      assert Decimal(n)[..0] == "";
    } else {
      DecimalRoundTrip(n / 10);
      assert Decimal(n)[..|Decimal(n)| - 1] == Decimal(n / 10);
    }
  }

  lemma DigitsAreStripped(s: string)
    requires AllDigits(s)
    ensures Stripped(s) && ' ' !in s && '\r' !in s && '\n' !in s && ':' !in s && '/' !in s
  {
  }

  /** int(s) for the shapes that occur: an optional sign and digits, surrounded by spaces. */
  function ToInt(s: string): Option<int> {
    var t := Strip(s);
    if AllDigits(t) then Some(ToNat(t))
    else if t != "" && (t[0] == '-' || t[0] == '+') && AllDigits(t[1..]) then
      var n: int := ToNat(t[1..]);
      Some(if t[0] == '-' then -n else n)
    else None
  }

  function FormatInt(n: int): (s: string) {
    if n < 0 then "-" + Decimal(-n) else Decimal(n)
  }

  lemma IntRoundTrip(n: int)
    ensures ToInt(FormatInt(n)) == Some(n)
    ensures ' ' !in FormatInt(n) && '\r' !in FormatInt(n) && '\n' !in FormatInt(n)
  {
    var digits := Decimal(if n < 0 then -n else n);
    DecimalRoundTrip(if n < 0 then -n else n);
    DigitsAreStripped(digits);
    var s := FormatInt(n);
    if n < 0 {
      assert s[1..] == digits && s[0] == '-';
      assert Stripped(s);
    }
    StrippedIsFixed(s);
  }
}
