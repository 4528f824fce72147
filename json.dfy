/**
 * The JSON text of a task list, as written into the cache under "tasks" and read back on a hit.
 *
 * Encode produces the layout of Python's json.dumps with default separators:
 *   [{"id": 1, "title": "a"}, {"id": 2, "title": "b"}]
 * Inside a title only the quote and the backslash are escaped. Decode reads that layout back: a
 * number may also be written -0, as JSON allows, but never with a leading zero, as JSON forbids. The
 * round trip Decode(Encode(ts)) == Some(ts) is proved below.
 */
module Json {
  import opened Wrappers

  /** A task as it appears in a response and in the cached text: {"id": id, "title": title}. */
  datatype Task = Task(id: int, title: string)

  const IdKey: string := "{\"id\": "
  const TitleKey: string := ", \"title\": "
  const ItemSeparator: string := ", "

  // ---------------------------------------------------------------------------
  // Literal prefixes
  // ---------------------------------------------------------------------------

  predicate HasPrefix(lit: string, s: string) {
    |lit| <= |s| && s[..|lit|] == lit
  }

  /** The rest of s after the literal lit, or None when s does not start with lit. */
  function Expect(lit: string, s: string): (r: Option<string>)
    ensures r.Some? <==> HasPrefix(lit, s)
    ensures r.Some? ==> lit + r.value == s
  {
    if HasPrefix(lit, s) then Some(s[|lit|..]) else None
  }

  lemma ExpectLiteral(lit: string, rest: string)
    ensures Expect(lit, lit + rest) == Some(rest)
  {
    assert (lit + rest)[..|lit|] == lit;
    assert (lit + rest)[|lit|..] == rest;
  }

  // ---------------------------------------------------------------------------
  // Integers
  // ---------------------------------------------------------------------------

  predicate IsDigit(c: char) {
    '0' <= c <= '9'
  }

  predicate AllDigits(s: string) {
    forall i :: 0 <= i < |s| ==> IsDigit(s[i])
  }

  function DigitChar(d: nat): (c: char)
    requires d < 10
    ensures IsDigit(c)
  {
    ('0' as int + d) as char
  }

  function DigitValue(c: char): (d: nat)
    requires IsDigit(c)
    ensures d < 10 && DigitChar(d) == c
  {
    c as int - '0' as int
  }

  /** The decimal text of n, most significant digit first, without leading zeros. */
  function NatText(n: nat): (s: string)
    ensures |s| > 0 && AllDigits(s)
    decreases n
  {
    if n < 10 then [DigitChar(n)] else NatText(n / 10) + [DigitChar(n % 10)]
  }

  /** The number a run of decimal digits denotes. */
  function DigitsValue(s: string): nat
    requires AllDigits(s)
  {
    if s == [] then 0 else DigitsValue(s[..|s| - 1]) * 10 + DigitValue(s[|s| - 1])
  }

  lemma {:induction false} NatTextValue(n: nat)
    ensures DigitsValue(NatText(n)) == n
    decreases n
  {
    if n >= 10 {
      var s := NatText(n);
      assert s[..|s| - 1] == NatText(n / 10);
      NatTextValue(n / 10);
    }
  }

  /** The length of the run of digits at the start of s. */
  function DigitRun(s: string): (n: nat)
    ensures n <= |s| && AllDigits(s[..n])
    ensures n < |s| ==> !IsDigit(s[n])
  {
    if s == [] || !IsDigit(s[0]) then 0
    else
      var n := 1 + DigitRun(s[1..]);
      assert s[..n] == [s[0]] + s[1..][..n - 1];
      n
  }

  /** A digit run ends where the digits end: the run over d + rest is d when rest starts with no digit. */
  lemma {:induction false} DigitRunOf(d: string, rest: string)
    requires AllDigits(d)
    requires rest == [] || !IsDigit(rest[0])
    ensures DigitRun(d + rest) == |d|
  {
    if d != [] {
      assert (d + rest)[1..] == d[1..] + rest;
      DigitRunOf(d[1..], rest);
    }
  }

  function IntText(i: int): (s: string)
    ensures |s| > 0
  {
    if i < 0 then "-" + NatText(-i) else NatText(i)
  }

  /** A run of digits; JSON admits no leading zero, so "0" stands alone and "01" is refused. */
  function ParseNat(s: string): (r: Option<(nat, string)>)
    ensures r.Some? ==> |r.value.1| < |s|
    ensures r.Some? ==> s[0] != '0' || !(1 < |s| && IsDigit(s[1]))
  {
    var n := DigitRun(s);
    if n == 0 || (1 < n && s[0] == '0') then None else Some((DigitsValue(s[..n]), s[n..]))
  }

  /** An optional minus sign followed by at least one digit. */
  function ParseInt(s: string): (r: Option<(int, string)>)
    ensures r.Some? ==> |r.value.1| < |s|
  {
    if s != [] && s[0] == '-' then
      var p :- ParseNat(s[1..]);
      var magnitude: int := p.0;
      Some((-magnitude, p.1))
    else
      var p :- ParseNat(s);
      Some((p.0 as int, p.1))
  }

  /** NatText writes no leading zero. */
  lemma {:induction false} NatTextNoLeadingZero(n: nat)
    ensures 1 < |NatText(n)| ==> NatText(n)[0] != '0'
    decreases n
  {
    if n >= 10 {
      NatTextNoLeadingZero(n / 10);
      assert NatText(n)[0] == NatText(n / 10)[0];
    }
  }

  lemma ParseNatText(n: nat, rest: string)
    requires rest == [] || !IsDigit(rest[0])
    ensures ParseNat(NatText(n) + rest) == Some((n, rest))
  {
    var d := NatText(n);
    NatTextNoLeadingZero(n);
    DigitRunOf(d, rest);
    assert (d + rest)[..|d|] == d;
    assert (d + rest)[|d|..] == rest;
    NatTextValue(n);
  }

  lemma ParseIntNegative(s: string, n: nat, rest: string)
    requires s != [] && s[0] == '-'
    requires ParseNat(s[1..]) == Some((n, rest))
    ensures ParseInt(s) == Some((-(n as int), rest))
  {
  }

  lemma ParseIntNonNegative(s: string, n: nat, rest: string)
    requires s == [] || s[0] != '-'
    requires ParseNat(s) == Some((n, rest))
    ensures ParseInt(s) == Some((n, rest))
  {
  }

  lemma ParseIntText(i: int, rest: string)
    requires rest == [] || !IsDigit(rest[0])
    ensures ParseInt(IntText(i) + rest) == Some((i, rest))
  {
    if i < 0 {
      var digits := NatText(-i) + rest;
      assert IntText(i) + rest == "-" + digits;
      assert ("-" + digits)[1..] == digits;
      ParseNatText(-i, rest);
      ParseIntNegative("-" + digits, -i, rest);
    } else {
      var s := NatText(i) + rest;
      assert s[0] == NatText(i)[0];
      ParseNatText(i, rest);
      ParseIntNonNegative(s, i, rest);
    }
  }

  // ---------------------------------------------------------------------------
  // Strings
  // ---------------------------------------------------------------------------

  function Escaped(c: char): string {
    if c == '"' || c == '\\' then ['\\', c] else [c]
  }

  /** The body of a JSON string literal for t, without the enclosing quotes. */
  function EscapeText(t: string): string {
    if t == [] then [] else Escaped(t[0]) + EscapeText(t[1..])
  }

  function StringText(t: string): string {
    "\"" + EscapeText(t) + "\""
  }

  /** Reads a string body up to and including its closing quote; answers the unescaped text and what follows. */
  function ParseStringBody(s: string): (r: Option<(string, string)>)
    ensures r.Some? ==> |r.value.1| < |s|
    decreases |s|
  {
    if s == [] then None
    else if s[0] == '"' then Some(([], s[1..]))
    else if s[0] == '\\' then
      if 2 <= |s| && (s[1] == '"' || s[1] == '\\') then
        var p :- ParseStringBody(s[2..]);
        Some(([s[1]] + p.0, p.1))
      else None
    else
      var p :- ParseStringBody(s[1..]);
      Some(([s[0]] + p.0, p.1))
  }

  function ParseString(s: string): (r: Option<(string, string)>)
    ensures r.Some? ==> |r.value.1| < |s|
  {
    if s != [] && s[0] == '"' then ParseStringBody(s[1..]) else None
  }

  lemma {:induction false} ParseStringBodyOf(t: string, rest: string)
    ensures ParseStringBody(EscapeText(t) + "\"" + rest) == Some((t, rest))
  {
    if t == [] {
      assert EscapeText(t) + "\"" + rest == "\"" + rest;
    } else {
      var e := Escaped(t[0]);
      var tail := EscapeText(t[1..]) + "\"" + rest;
      assert EscapeText(t) + "\"" + rest == e + tail;
      ParseStringBodyOf(t[1..], rest);
      if t[0] == '"' || t[0] == '\\' {
        assert (e + tail)[2..] == tail;
      } else {
        assert (e + tail)[1..] == tail;
      }
      assert [t[0]] + t[1..] == t;
    }
  }

  lemma ParseStringText(t: string, rest: string)
    ensures ParseString(StringText(t) + rest) == Some((t, rest))
  {
    assert (StringText(t) + rest)[1..] == EscapeText(t) + "\"" + rest;
    ParseStringBodyOf(t, rest);
  }

  // ---------------------------------------------------------------------------
  // Tasks and task lists
  // ---------------------------------------------------------------------------

  function TaskText(t: Task): string {
    IdKey + IntText(t.id) + TitleKey + StringText(t.title) + "}"
  }

  function ParseTask(s: string): (r: Option<(Task, string)>)
    ensures r.Some? ==> |r.value.1| < |s|
  {
    var s1 :- Expect(IdKey, s);
    var id :- ParseInt(s1);
    var s2 :- Expect(TitleKey, id.1);
    var title :- ParseString(s2);
    var s3 :- Expect("}", title.1);
    Some((Task(id.0, title.0), s3))
  }

  lemma ParseTaskSteps(s: string, s1: string, id: int, s2: string, s3: string, title: string, s4: string, s5: string)
    requires Expect(IdKey, s) == Some(s1)
    requires ParseInt(s1) == Some((id, s2))
    requires Expect(TitleKey, s2) == Some(s3)
    requires ParseString(s3) == Some((title, s4))
    requires Expect("}", s4) == Some(s5)
    ensures ParseTask(s) == Some((Task(id, title), s5))
  {
  }

  lemma TaskTextSplit(t: Task, rest: string)
    ensures TaskText(t) + rest ==
            IdKey + (IntText(t.id) + (TitleKey + (StringText(t.title) + ("}" + rest))))
  {
    var a, b, c, d := IdKey, IntText(t.id), TitleKey, StringText(t.title);
    assert a + b + c + d + "}" + rest == a + (b + (c + (d + ("}" + rest))));
  }

  lemma ParseTaskText(t: Task, rest: string)
    ensures ParseTask(TaskText(t) + rest) == Some((t, rest))
  {
    var afterTitle := "}" + rest;
    var afterId := TitleKey + (StringText(t.title) + afterTitle);
    var afterKey := IntText(t.id) + afterId;
    TaskTextSplit(t, rest);
    ExpectLiteral(IdKey, afterKey);
    assert afterId[0] == ',';
    ParseIntText(t.id, afterId);
    ExpectLiteral(TitleKey, StringText(t.title) + afterTitle);
    ParseStringText(t.title, afterTitle);
    ExpectLiteral("}", rest);
    ParseTaskSteps(TaskText(t) + rest, afterKey, t.id, afterId, StringText(t.title) + afterTitle, t.title, afterTitle, rest);
  }

  /** The comma-separated objects of a non-empty list, without the brackets. */
  function ItemsText(ts: seq<Task>): string
    requires ts != []
  {
    if |ts| == 1 then TaskText(ts[0]) else TaskText(ts[0]) + ItemSeparator + ItemsText(ts[1..])
  }

  function ParseItems(s: string): (r: Option<(seq<Task>, string)>)
    ensures r.Some? ==> r.value.0 != [] && |r.value.1| < |s|
    decreases |s|
  {
    var first :- ParseTask(s);
    if HasPrefix(ItemSeparator, first.1) then
      var more :- ParseItems(first.1[|ItemSeparator|..]);
      Some(([first.0] + more.0, more.1))
    else
      Some(([first.0], first.1))
  }

  lemma ParseItemsLast(s: string, t: Task, rest: string)
    requires ParseTask(s) == Some((t, rest))
    requires !HasPrefix(ItemSeparator, rest)
    ensures ParseItems(s) == Some(([t], rest))
  {
  }

  lemma ParseItemsNext(s: string, t: Task, afterFirst: string, ts: seq<Task>, rest: string)
    requires ParseTask(s) == Some((t, afterFirst))
    requires HasPrefix(ItemSeparator, afterFirst)
    requires ParseItems(afterFirst[|ItemSeparator|..]) == Some((ts, rest))
    ensures ParseItems(s) == Some(([t] + ts, rest))
  {
  }

  lemma {:induction false} ParseItemsText(ts: seq<Task>, rest: string)
    requires ts != []
    requires !HasPrefix(ItemSeparator, rest)
    ensures ParseItems(ItemsText(ts) + rest) == Some((ts, rest))
  {
    if |ts| == 1 {
      ParseTaskText(ts[0], rest);
      ParseItemsLast(ItemsText(ts) + rest, ts[0], rest);
      assert ts == [ts[0]];
    } else {
      ParseItemsText(ts[1..], rest);
      ItemsTextSplit(ts, rest);
      ParseItemsCons(ts[0], ItemsText(ts[1..]) + rest, ts[1..], rest);
      assert [ts[0]] + ts[1..] == ts;
    }
  }

  lemma ConcatRegroup(a: string, b: string, c: string, d: string)
    ensures a + b + c + d == a + (b + (c + d))
  {
  }

  lemma ItemsTextSplit(ts: seq<Task>, rest: string)
    requires |ts| > 1
    ensures ItemsText(ts) + rest == TaskText(ts[0]) + (ItemSeparator + (ItemsText(ts[1..]) + rest))
  {
    ConcatRegroup(TaskText(ts[0]), ItemSeparator, ItemsText(ts[1..]), rest);
  }

  /** One more object in front of a parsed list of objects, after a separator. */
  lemma ParseItemsCons(t: Task, tail: string, ts: seq<Task>, rest: string)
    requires ParseItems(tail) == Some((ts, rest))
    ensures ParseItems(TaskText(t) + (ItemSeparator + tail)) == Some(([t] + ts, rest))
  {
    var afterFirst := ItemSeparator + tail;
    ParseTaskText(t, afterFirst);
    ExpectLiteral(ItemSeparator, tail);
    assert afterFirst[|ItemSeparator|..] == tail;
    ParseItemsNext(TaskText(t) + afterFirst, t, afterFirst, ts, rest);
  }

  /** json.dumps of a task list. The text is never empty, so a cached list always reads as present. */
  function Encode(ts: seq<Task>): (text: string)
    ensures |text| >= 2 && text[0] == '[' && text[|text| - 1] == ']'
  {
    if ts == [] then "[]" else "[" + ItemsText(ts) + "]"
  }

  /** json.loads of a cached task list; None for a text that is not such a list. */
  function Decode(text: string): (r: Option<seq<Task>>)
    ensures r.Some? ==> text != []
  {
    var s1 :- Expect("[", text);
    if s1 == "]" then Some([])
    else
      var items :- ParseItems(s1);
      if items.1 == "]" then Some(items.0) else None
  }

  /** Every list read back from its own text is the list written. */
  lemma DecodeEncode(ts: seq<Task>)
    ensures Decode(Encode(ts)) == Some(ts)
  {
    if ts == [] {
      ExpectLiteral("[", "]");
    } else {
      var body := ItemsText(ts) + "]";
      assert Encode(ts) == "[" + body;
      ExpectLiteral("[", body);
      ParseItemsText(ts, "]");
      assert body != "]" by {
        ParseTaskText(ts[0], []);
      }
    }
  }

  /** An id written with a leading zero is not JSON, so the whole text is refused: [{"id": 01, "title": "a"}]. */
  lemma DecodeRefusesLeadingZero()
    ensures Decode("[" + (IdKey + ("01" + TitleKey + "\"a\"}]"))) == None
  {
    var afterKey := "01" + TitleKey + "\"a\"}]";
    var afterBracket := IdKey + afterKey;
    ExpectLiteral("[", afterBracket);
    ExpectLiteral(IdKey, afterKey);
    assert afterKey[0] == '0' && afterKey[1] == '1';
    assert DigitRun(afterKey) >= 2 by {
      assert afterKey[1..][0] == '1';
    }
    assert ParseInt(afterKey) == None;
    assert ParseTask(afterBracket) == None;
  }

  /** Two lists with the same text are the same list. */
  lemma EncodeInjective(a: seq<Task>, b: seq<Task>)
    requires Encode(a) == Encode(b)
    ensures a == b
  {
    DecodeEncode(a);
    DecodeEncode(b);
  }
}
