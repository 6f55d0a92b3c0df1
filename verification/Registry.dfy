/** Agent discovery: a coarse SQL prefilter (LIKE on JSON text) followed by the exact filter, compacted in place.
    Strings in LIKE fold ASCII case, as SQLite does. */
module Registry {
  import opened Lists
  import opened Options
  import Text

  // ---------- LIKE ----------

  function Fold(c: char): char {
    if 'A' <= c <= 'Z' then (c as int + 32) as char else c
  }

  predicate Like(text: string, pattern: string)
    decreases |text| + |pattern|
  {
    if pattern == [] then text == []
    else if pattern[0] == '%' then Like(text, pattern[1..]) || (text != [] && Like(text[1..], pattern))
    else text != [] && (pattern[0] == '_' || Fold(text[0]) == Fold(pattern[0])) && Like(text[1..], pattern[1..])
  }

  predicate At(s: string, sub: string, i: nat) { i + |sub| <= |s| && s[i..i + |sub|] == sub }

  ghost predicate Contains(s: string, sub: string) { exists i :: At(s, sub, i) }

  lemma {:induction false} PercentTakesAll(text: string)
    ensures Like(text, "%")
  {
    if text != [] {
      PercentTakesAll(text[1..]);
    }
    assert "%"[1..] == "";
  }

  lemma {:induction false} LikeStartsWith(text: string, core: string)
    requires core <= text && '%' !in core
    ensures Like(text, core + "%")
  {
    var pattern := core + "%";
    if core == [] {
      assert pattern == "%";
      PercentTakesAll(text);
    } else {
      assert pattern[1..] == core[1..] + "%" && pattern[0] == core[0] == text[0];
      LikeStartsWith(text[1..], core[1..]);
    }
  }

  /** "%core%" finds every text that contains core at position i. */
  lemma {:induction false} LikeFinds(text: string, core: string, i: nat)
    requires At(text, core, i) && '%' !in core
    ensures Like(text, "%" + core + "%")
    decreases i
  {
    var pattern := "%" + core + "%";
    assert pattern[1..] == core + "%";
    if i == 0 {
      assert core <= text;
      LikeStartsWith(text, core);
    } else {
      assert text[1..][i - 1..i - 1 + |core|] == core;
      LikeFinds(text[1..], core, i - 1);
    }
  }

  /** The same but for the case of a letter. */
  predicate SameButCase(a: char, b: char) {
    a == b || (Letter(a) && Letter(b) && (a as int == b as int + 32 || b as int == a as int + 32))
  }

  predicate FoldedAt(text: string, core: string, i: nat) {
    i + |core| <= |text| && forall k | 0 <= k < |core| :: SameButCase(text[i + k], core[k])
  }

  lemma FoldIsCase(a: char, b: char)
    ensures Fold(a) == Fold(b) <==> SameButCase(a, b)
  {
  }

  lemma {:induction false} LikeStartsExactly(text: string, core: string)
    requires '%' !in core && '_' !in core
    ensures Like(text, core + "%") <==> FoldedAt(text, core, 0)
    decreases |core|
  {
    var pattern := core + "%";
    if core == "" {
      assert pattern == "%";
      PercentTakesAll(text);
    } else {
      assert pattern[1..] == core[1..] + "%" && pattern[0] == core[0] && core[0] in core;
      if text != "" {
        FoldIsCase(text[0], core[0]);
        LikeStartsExactly(text[1..], core[1..]);
        FoldedTail(text, core);
      }
      hide Fold, SameButCase;
    }
  }

  lemma FoldedTail(text: string, core: string)
    requires text != "" && core != ""
    ensures FoldedAt(text, core, 0) <==> SameButCase(text[0], core[0]) && FoldedAt(text[1..], core[1..], 0)
  {
    hide SameButCase;
    if FoldedAt(text, core, 0) {
      forall k | 0 <= k < |core| - 1 ensures SameButCase(text[1..][k], core[1..][k]) {
        assert SameButCase(text[0 + (k + 1)], core[k + 1]);
      }
    }
    if SameButCase(text[0], core[0]) && FoldedAt(text[1..], core[1..], 0) {
      forall k | 0 <= k < |core| ensures SameButCase(text[0 + k], core[k]) {
        assert k > 0 ==> SameButCase(text[1..][0 + (k - 1)], core[1..][k - 1]);
      }
    }
  }

  /** "%core%" matches exactly the texts that hold core somewhere, the case of letters aside. */
  lemma {:induction false} LikeIsContains(text: string, core: string)
    requires '%' !in core && '_' !in core
    ensures Like(text, "%" + core + "%") <==> exists i: nat :: FoldedAt(text, core, i)
    decreases |text|
  {
    var pattern := "%" + core + "%";
    assert pattern[1..] == core + "%";
    LikeStartsExactly(text, core);
    if text != "" {
      LikeIsContains(text[1..], core);
    }
    hide FoldedAt;
    if Like(text, pattern) && !FoldedAt(text, core, 0) {
      var i: nat :| FoldedAt(text[1..], core, i);
      FoldedLater(text, core, i);
    }
    if i: nat :| FoldedAt(text, core, i) && i > 0 {
      FoldedIsInside(text, core, i);
      FoldedLater(text, core, i - 1);
    }
  }

  lemma FoldedIsInside(text: string, core: string, i: nat)
    requires FoldedAt(text, core, i) && i > 0
    ensures text != ""
  {
  }

  lemma FoldedLater(text: string, core: string, i: nat)
    requires text != ""
    ensures FoldedAt(text[1..], core, i) <==> FoldedAt(text, core, i + 1)
  {
    hide SameButCase;
    if FoldedAt(text[1..], core, i) {
      forall k | 0 <= k < |core| ensures SameButCase(text[i + 1 + k], core[k]) {
        assert SameButCase(text[1..][i + k], core[k]);
      }
    }
    if FoldedAt(text, core, i + 1) {
      forall k | 0 <= k < |core| ensures SameButCase(text[1..][i + k], core[k]) {
        assert SameButCase(text[i + 1 + k], core[k]);
      }
    }
  }

  predicate Letter(c: char) { 'a' <= c <= 'z' || 'A' <= c <= 'Z' }

  /** A pattern character that is neither a wildcard nor a letter must occur in the text. */
  lemma {:induction false} LikeNeeds(text: string, pattern: string, c: char)
    requires Like(text, pattern) && c in pattern && c != '%' && c != '_' && !Letter(c)
    ensures c in text
    decreases |text| + |pattern|
  {
    if pattern[0] == '%' {
      if Like(text, pattern[1..]) {
        LikeNeeds(text, pattern[1..], c);
      } else {
        LikeNeeds(text[1..], pattern, c);
      }
    } else if pattern[0] != c {
      LikeNeeds(text[1..], pattern[1..], c);
    } else {
      assert text[0] == c;
    }
  }

  // ---------- JSON text of a string list ----------

  function HexDigit(n: nat): char
    requires n < 16
  {
    "0123456789abcdef"[n]
  }

  /** Characters the encoder writes as an escape: quote, backslash, control characters, the three HTML characters
      and the two line separators. */
  predicate Escaped(c: char) {
    c == '"' || c == '\\' || c as int < 0x20 || c == '<' || c == '>' || c == '&' || c as int == 0x2028 || c as int == 0x2029
  }

  function Escape(c: char): string {
    if !Escaped(c) then [c]
    else if c == '"' || c == '\\' then ['\\', c]
    else if c as int == 8 then "\\b"
    else if c as int == 9 then "\\t"
    else if c as int == 10 then "\\n"
    else if c as int == 12 then "\\f"
    else if c as int == 13 then "\\r"
    else if c as int >= 0x2028 then "\\u202" + [HexDigit(c as int - 0x2020)]
    else "\\u00" + [HexDigit(c as int / 16), HexDigit(c as int % 16)]
  }

  function EscapeAll(v: string): string {
    if v == [] then [] else EscapeAll(v[..|v| - 1]) + Escape(v[|v| - 1])
  }

  function Quote(v: string): string { "\"" + EscapeAll(v) + "\"" }

  function Elements(xs: seq<string>): string {
    if xs == [] then "" else if |xs| == 1 then Quote(xs[0]) else Elements(xs[..|xs| - 1]) + "," + Quote(xs[|xs| - 1])
  }

  /** marshalStringList. */
  function EncodeList(xs: seq<string>): string { "[" + Elements(xs) + "]" }

  lemma ContainsWithin(a: string, s: string, b: string, sub: string)
    requires Contains(s, sub)
    ensures Contains(a + s + b, sub)
  {
    var i: nat :| At(s, sub, i);
    assert (a + s + b)[|a| + i..|a| + i + |sub|] == s[i..i + |sub|];
    assert At(a + s + b, sub, |a| + i);
  }

  lemma {:induction false} ElementIsQuoted(xs: seq<string>, v: string)
    requires v in xs
    ensures Contains(EncodeList(xs), Quote(v))
  {
    QuotedAmongElements(xs, v);
    ContainsWithin("[", Elements(xs), "]", Quote(v));
  }

  lemma {:induction false} QuotedAmongElements(xs: seq<string>, v: string)
    requires v in xs
    ensures Contains(Elements(xs), Quote(v))
  {
    hide Quote;
    var q := Quote(v);
    assert q[0..|q|] == q;
    assert At(q, q, 0);
    if |xs| > 1 {
      var (front, last) := (xs[..|xs| - 1], xs[|xs| - 1]);
      assert xs == front + [last];
      if v == last {
        ContainsWithin(Elements(front) + ",", q, "", q);
        assert (Elements(front) + ",") + q + "" == Elements(xs);
      } else {
        QuotedAmongElements(front, v);
        ContainsWithin("", Elements(front), "," + Quote(last), q);
        assert "" + Elements(front) + ("," + Quote(last)) == Elements(xs);
      }
    }
  }

  /** Written unescaped, a string is its own JSON content. */
  lemma {:induction false} UnescapedIsItself(v: string)
    requires forall c | c in v :: !Escaped(c)
    ensures EscapeAll(v) == v
  {
    if v != [] {
      UnescapedIsItself(v[..|v| - 1]);
      assert v == v[..|v| - 1] + [v[|v| - 1]];
    }
  }

  /** No escaped character but quote and backslash occurs raw in the JSON text. */
  lemma {:induction false} EscapedNeverRaw(v: string, c: char)
    requires Escaped(c) && c != '"' && c != '\\'
    ensures c !in EscapeAll(v)
  {
    if v != [] {
      EscapedNeverRaw(v[..|v| - 1], c);
      EscapeIsClean(v[|v| - 1], c);
    }
  }

  lemma EscapeIsClean(d: char, c: char)
    requires Escaped(c) && c != '"' && c != '\\'
    ensures c !in Escape(d)
  {
    if Escaped(d) {
      EscapeIsPlain(d);
      hide Escape;
      assert c !in "\\\"u0123456789abcdefntr";
    }
  }

  lemma EscapeIsPlain(d: char)
    requires Escaped(d)
    ensures forall e | e in Escape(d) :: e in "\\\"u0123456789abcdefntr"
  {
  }

  // ---------- the text reads back ----------

  function HexValue(c: char): int {
    if '0' <= c <= '9' then c as int - '0' as int else if 'a' <= c <= 'f' then c as int - 'a' as int + 10 else -1
  }

  function HexNumber(s: string): int
    requires |s| == 4
  {
    if forall c | c in s :: HexValue(c) >= 0
    then ((HexValue(s[0]) * 16 + HexValue(s[1])) * 16 + HexValue(s[2])) * 16 + HexValue(s[3]) else -1
  }

  /** One JSON character (section 7 of RFC 8259), its code and how much text it takes; surrogates are not read. */
  function ReadChar(s: string): (r: Option<(char, nat)>)
    requires s != ""
    ensures r.Some? ==> 0 < r.value.1 <= |s|
  {
    if s[0] != '\\' then (if s[0] as int < 0x20 || s[0] == '"' then None else Some((s[0], 1)))
    else if |s| < 2 then None
    else if s[1] == '"' || s[1] == '\\' || s[1] == '/' then Some((s[1], 2))
    else if s[1] == 'b' then Some((8 as char, 2))
    else if s[1] == 't' then Some((9 as char, 2))
    else if s[1] == 'n' then Some((10 as char, 2))
    else if s[1] == 'f' then Some((12 as char, 2))
    else if s[1] == 'r' then Some((13 as char, 2))
    else if s[1] == 'u' && |s| >= 6 && 0 <= HexNumber(s[2..6]) < 0xD800 then Some((HexNumber(s[2..6]) as char, 6))
    else None
  }

  /** The rest of a JSON string after its opening quote: its value, and the text behind its closing quote. */
  function ReadString(s: string): (r: Option<(string, string)>)
    ensures r.Some? ==> |r.value.1| < |s|
    decreases |s|
  {
    if s == "" then None
    else if s[0] == '"' then Some(("", s[1..]))
    else if ReadChar(s).None? then None
    else
      var (c, n) := ReadChar(s).value;
      var tail := ReadString(s[n..]);
      if tail.None? then None else Some(([c] + tail.value.0, tail.value.1))
  }

  function ReadItems(s: string): Option<seq<string>>
    decreases |s|
  {
    if s == "" || s[0] != '"' || ReadString(s[1..]).None? then None
    else
      var (v, rest) := ReadString(s[1..]).value;
      if rest == "]" then Some([v])
      else if rest == "" || rest[0] != ',' then None
      else
        var more := ReadItems(rest[1..]);
        if more.None? then None else Some([v] + more.value)
  }

  /** A JSON reader for arrays of strings without spaces. */
  function DecodeList(s: string): Option<seq<string>> {
    if s == "[]" then Some([]) else if s == "" || s[0] != '[' then None else ReadItems(s[1..])
  }

  lemma CharReadsBack(c: char, rest: string)
    ensures ReadChar(Escape(c) + rest) == Some((c, |Escape(c)|)) && Escape(c) != "" && Escape(c)[0] != '"'
  {
    if Escaped(c) && c != '"' && c != '\\' {
      HexReadsBack(c, rest);
    }
  }

  lemma HexReadsBack(c: char, rest: string)
    requires Escaped(c) && c != '"' && c != '\\'
    ensures |Escape(c)| == 6 ==> (Escape(c) + rest)[2..6] == Escape(c)[2..] && HexNumber(Escape(c)[2..]) == c as int
  {
    var n := c as int;
    if |Escape(c)| == 6 {
      var digits := FourDigits(c);
      hide Escape, Escaped;
      assert Escape(c)[2..] == digits;
      DigitReadsBack();
      hide HexDigit;
      assert forall d | d in digits :: HexValue(d) >= 0;
    }
  }

  lemma FourDigits(c: char) returns (digits: string)
    requires Escaped(c) && |Escape(c)| == 6
    ensures Escape(c) == "\\u" + digits && c as int < 0x2030
    ensures digits == if c as int >= 0x2028 then "202" + [HexDigit(c as int - 0x2020)]
                      else ['0', '0', HexDigit(c as int / 16), HexDigit(c as int % 16)]
    ensures c as int < 0x2028 ==> c as int < 0x100
  {
    digits := Escape(c)[2..];
  }

  lemma DigitReadsBack()
    ensures forall d: nat | d < 16 :: HexValue(HexDigit(d)) == d
  {
  }

  lemma {:induction false} EscapeFromFront(v: string)
    requires v != ""
    ensures EscapeAll(v) == Escape(v[0]) + EscapeAll(v[1..])
  {
    if |v| > 1 {
      EscapeFromFront(v[..|v| - 1]);
      assert v[1..][..|v| - 2] == v[..|v| - 1][1..];
    } else {
      assert v[..0] == "" && v[1..] == "";
    }
  }

  lemma ReadsOneChar(e: string, c: char, tail: string)
    requires e != "" && e[0] != '"' && ReadChar(e + tail) == Some((c, |e|))
    ensures ReadString(e + tail) ==
            if ReadString(tail).None? then None else Some(([c] + ReadString(tail).value.0, ReadString(tail).value.1))
  {
    hide ReadChar;
    assert (e + tail)[|e|..] == tail && (e + tail)[0] == e[0];
  }

  lemma ReadsQuote(rest: string)
    ensures ReadString("\"" + rest) == Some(("", rest))
  {
    assert ("\"" + rest)[1..] == rest;
  }

  lemma {:induction false} StringReadsBack(v: string, rest: string)
    ensures ReadString(EscapeAll(v) + "\"" + rest) == Some((v, rest))
    decreases |v|
  {
    hide ReadString, Escape, ReadChar;
    if v == "" {
      assert EscapeAll(v) + "\"" + rest == "\"" + rest;
      ReadsQuote(rest);
    } else {
      hide EscapeAll;
      var tail := EscapeAll(v[1..]) + "\"" + rest;
      EscapeFromFront(v);
      CharReadsBack(v[0], tail);
      StringReadsBack(v[1..], rest);
      ReadsOneChar(Escape(v[0]), v[0], tail);
      assert EscapeAll(v) + "\"" + rest == Escape(v[0]) + tail;
      assert [v[0]] + v[1..] == v;
    }
  }

  lemma {:induction false} ElementsFromFront(xs: seq<string>)
    requires |xs| > 1
    ensures Elements(xs) == Quote(xs[0]) + "," + Elements(xs[1..])
    decreases |xs|
  {
    hide Quote;
    var (front, last) := (xs[..|xs| - 1], xs[|xs| - 1]);
    if |xs| == 2 {
      assert front == [xs[0]] && xs[1..] == [xs[1]];
    } else {
      ElementsFromFront(front);
      assert front[1..] == xs[1..][..|xs| - 2];
      assert Quote(xs[0]) + "," + Elements(front[1..]) + "," + Quote(last)
          == Quote(xs[0]) + "," + (Elements(front[1..]) + "," + Quote(last));
    }
  }

  lemma ReadsOneItem(s: string, v: string, rest: string)
    requires s != "" && s[0] == '"' && ReadString(s[1..]) == Some((v, rest))
    ensures rest == "]" ==> ReadItems(s) == Some([v])
    ensures rest != "]" && rest != "" && rest[0] == ',' && ReadItems(rest[1..]).Some? ==>
              ReadItems(s) == Some([v] + ReadItems(rest[1..]).value)
  {
    hide ReadString;
  }

  lemma ReadsQuoted(v: string, rest: string)
    ensures (Quote(v) + rest)[0] == '"' && ReadString((Quote(v) + rest)[1..]) == Some((v, rest))
  {
    hide ReadString, EscapeAll;
    StringReadsBack(v, rest);
    assert (Quote(v) + rest)[1..] == EscapeAll(v) + "\"" + rest;
  }

  lemma {:induction false} ItemsReadBack(xs: seq<string>)
    requires xs != []
    ensures ReadItems(Elements(xs) + "]") == Some(xs)
    decreases |xs|
  {
    hide ReadItems, ReadString, EscapeAll, Quote;
    if |xs| == 1 {
      ReadsQuoted(xs[0], "]");
      ReadsOneItem(Quote(xs[0]) + "]", xs[0], "]");
      assert Elements(xs) == Quote(xs[0]) && [xs[0]] == xs;
    } else {
      ElementsFromFront(xs);
      hide Elements;
      ItemsReadBack(xs[1..]);
      var rest := "," + Elements(xs[1..]) + "]";
      assert rest[1..] == Elements(xs[1..]) + "]" && rest[0] == ',' && rest != "]";
      ReadsQuoted(xs[0], rest);
      ReadsOneItem(Quote(xs[0]) + rest, xs[0], rest);
      assert Elements(xs) + "]" == Quote(xs[0]) + rest && [xs[0]] + xs[1..] == xs;
    }
  }

  lemma SomeElements(xs: seq<string>)
    requires xs != []
    ensures Elements(xs) != ""
  {
    if |xs| > 1 {
      ElementsFromFront(xs);
    }
    hide EscapeAll;
  }

  /** The stored text reads back as the very list it was written from. */
  lemma EncodedListReadsBack(xs: seq<string>)
    ensures DecodeList(EncodeList(xs)) == Some(xs)
  {
    if xs == [] {
      assert EncodeList(xs) == "[]";
    } else {
      ItemsReadBack(xs);
      SomeElements(xs);
      hide ReadItems, Elements;
      var s := EncodeList(xs);
      assert s[0] == '[' && s[1..] == Elements(xs) + "]" && |s| > 2;
    }
  }

  /** And it holds no raw control, HTML or separator character. */
  lemma EncodedIsSafe(xs: seq<string>, c: char)
    requires c in EncodeList(xs)
    ensures c as int >= 0x20 && c !in "<>&" && c as int != 0x2028 && c as int != 0x2029
  {
    if c as int < 0x20 || c in "<>&" || c as int == 0x2028 || c as int == 0x2029 {
      assert Escaped(c) && c != '"' && c != '\\' && c != ',' && c != '[' && c != ']';
      NeverInElements(xs, c);
    }
  }

  lemma {:induction false} NeverInElements(xs: seq<string>, c: char)
    requires Escaped(c) && c != '"' && c != '\\'
    ensures c !in Elements(xs)
  {
    if xs != [] {
      EscapedNeverRaw(xs[|xs| - 1], c);
      NeverInElements(xs[..|xs| - 1], c);
      assert |xs| == 1 ==> xs[0] == xs[|xs| - 1];
      hide EscapeAll;
    }
  }

  /** What is written raw. */
  lemma EscapesOnly(c: char)
    ensures Escape(c) == [c] <==> c as int >= 0x20 && c !in "\"\\<>&" && c as int != 0x2028 && c as int != 0x2029
  {
    assert Escaped(c) ==> |Escape(c)| >= 2;
    hide Escape;
  }

  /** And how the rest is escaped. */
  lemma EscapesAsGo(c: char)
    ensures c == '"' || c == '\\' ==> Escape(c) == ['\\', c]
    ensures c in "<>&" ==> Escape(c) == if c == '<' then "\\u003c" else if c == '>' then "\\u003e" else "\\u0026"
    ensures c in "\t\n\r" ==> Escape(c) == if c == '\t' then "\\t" else if c == '\n' then "\\n" else "\\r"
    ensures c as int == 8 ==> Escape(c) == "\\b"
    ensures c as int == 12 ==> Escape(c) == "\\f"
    ensures c as int == 0 ==> Escape(c) == "\\u0000"
    ensures c as int == 0x2028 ==> Escape(c) == "\\u2028"
  {
  }

  // ---------- status and filters ----------

  const SECOND: int := 1_000_000_000

  /** An agents row; heartbeat is in Unix seconds, 0 or less meaning none. */
  datatype Agent = Agent(id: string, owner: string, name: string, model: string,
                         caps: seq<string>, tags: seq<string>, heartbeat: int, status: string)

  datatype Filter = Filter(owner: string, capability: string, tag: string, status: string, query: string, exclude: string)

  /** Liveness at an instant in nanoseconds since the Unix epoch. */
  function ComputeStatus(heartbeat: int, now: int, ttl: int): (status: string)
    ensures status in ["online", "stale", "offline"]
  {
    if ttl <= 0 || heartbeat <= 0 then "offline"
    else
      var elapsed := now - heartbeat * SECOND;
      if elapsed < ttl then "online" else if elapsed < 3 * ttl then "stale" else "offline"
  }

  /** Heard from less than a lease ago. */
  predicate WithinLease(heartbeat: int, now: int, ttl: int) {
    ttl > 0 && heartbeat > 0 && now - heartbeat * 1_000_000_000 < ttl
  }

  /** Heard from at least one lease ago, but less than three. */
  predicate Lapsing(heartbeat: int, now: int, ttl: int) {
    ttl > 0 && heartbeat > 0 && ttl <= now - heartbeat * 1_000_000_000 < 3 * ttl
  }

  /** The status filter in words: nothing given asks for live and lapsing agents. */
  predicate Asked(wanted: string, heartbeat: int, now: int, ttl: int) {
    || ((wanted == "" || wanted == "online") && WithinLease(heartbeat, now, ttl))
    || ((wanted == "" || wanted == "stale") && Lapsing(heartbeat, now, ttl))
    || (wanted == "offline" && !WithinLease(heartbeat, now, ttl) && !Lapsing(heartbeat, now, ttl))
  }

  lemma StatusIsLiveness(heartbeat: int, now: int, ttl: int)
    ensures ComputeStatus(heartbeat, now, ttl) == "online" <==> WithinLease(heartbeat, now, ttl)
    ensures ComputeStatus(heartbeat, now, ttl) == "stale" <==> Lapsing(heartbeat, now, ttl)
    ensures forall wanted | wanted in ["", "online", "stale", "offline"] ::
              StatusAllowed(ComputeStatus(heartbeat, now, ttl), wanted) <==> Asked(wanted, heartbeat, now, ttl)
  {
    assert "online" != "stale" && "online" != "offline" && "stale" != "offline" && "" != "online" && "" != "stale" && "" != "offline";
    var st := ComputeStatus(heartbeat, now, ttl);
    assert st == "online" || st == "stale" || st == "offline";
  }

  predicate StatusAllowed(status: string, wanted: string) {
    if wanted == "" then status == "online" || status == "stale" else status == wanted
  }

  ghost predicate MatchesQuery(a: Agent, query: string, lower: string -> string) {
    || Contains(lower(a.name), lower(query)) || Contains(lower(a.model), lower(query))
    || (exists c :: c in a.caps && Contains(lower(c), lower(query)))
    || (exists t :: t in a.tags && Contains(lower(t), lower(query)))
  }

  /** The exact filter, liveness aside. */
  ghost predicate Matches(a: Agent, f: Filter, lower: string -> string) {
    && (f.owner != "" ==> a.owner == f.owner)
    && (f.exclude != "" ==> a.id != f.exclude)
    && (f.capability != "" ==> f.capability in a.caps)
    && (f.tag != "" ==> f.tag in a.tags)
    && (f.query != "" ==> MatchesQuery(a, f.query, lower))
  }

  /** jsonElemLike gives a pattern only for values free of wildcards, quotes and backslashes. */
  predicate HasPattern(v: string) {
    v != "" && forall c | c in v :: c != '%' && c != '_' && c != '"' && c != '\\'
  }

  /** The guard names the two wildcards and the two characters JSON writes with a backslash, and no other. */
  lemma GuardedValues(v: string)
    ensures HasPattern(v) <==> v != "" && '%' !in v && '_' !in v && '"' !in v && '\\' !in v
  {
  }

  function Pattern(v: string): string { "%" + ("\"" + v + "\"") + "%" }

  /** The WHERE clause of List. */
  predicate Coarse(a: Agent, f: Filter) {
    && (f.owner != "" ==> a.owner == f.owner)
    && (f.exclude != "" ==> a.id != f.exclude)
    && (HasPattern(f.capability) ==> Like(EncodeList(a.caps), Pattern(f.capability)))
    && (HasPattern(f.tag) ==> Like(EncodeList(a.tags), Pattern(f.tag)))
  }

  function Listed(table: seq<Agent>, f: Filter): seq<Agent> {
    if table == [] then []
    else
      var (front, a) := (Listed(table[..|table| - 1], f), table[|table| - 1]);
      if Coarse(a, f) then front + [a] else front
  }

  function Stamped(a: Agent, now: int, ttl: int): Agent { a.(status := ComputeStatus(a.heartbeat, now, ttl)) }

  ghost predicate Wanted(a: Agent, f: Filter, now: int, ttl: int, lower: string -> string) {
    Matches(a, f, lower) && StatusAllowed(ComputeStatus(a.heartbeat, now, ttl), f.status)
  }

  /** The plain filter: every wanted row in order, with its status filled in. */
  ghost function Selected(rows: seq<Agent>, f: Filter, now: int, ttl: int, lower: string -> string): seq<Agent> {
    if rows == [] then []
    else
      var (front, a) := (Selected(rows[..|rows| - 1], f, now, ttl, lower), rows[|rows| - 1]);
      if Wanted(a, f, now, ttl, lower) then front + [Stamped(a, now, ttl)] else front
  }

  ghost function Discovered(table: seq<Agent>, f: Filter, now: int, ttl: int, lower: string -> string): seq<Agent> {
    Selected(Listed(table, f), f, now, ttl, lower)
  }

  // ---------- the prefilter loses nothing, exactly when ... ----------

  /** A value the prefilter handles: it is skipped for it, or the encoder writes the value unescaped. */
  predicate Searchable(v: string) {
    HasPattern(v) ==> forall c | c in v :: !Escaped(c)
  }

  /** For a searchable value the LIKE pattern finds every list that has it. */
  lemma PatternFinds(xs: seq<string>, v: string)
    requires v in xs && HasPattern(v) && Searchable(v)
    ensures Like(EncodeList(xs), Pattern(v))
  {
    hide Like, EncodeList, EscapeAll, At, Escaped;
    ElementIsQuoted(xs, v);
    UnescapedIsItself(v);
    var i: nat :| At(EncodeList(xs), Quote(v), i);
    assert '%' !in Quote(v);
    LikeFinds(EncodeList(xs), Quote(v), i);
  }

  /** For any other value it misses even the list that has nothing else. */
  lemma PatternMisses(v: string)
    requires !Searchable(v)
    ensures !Like(EncodeList([v]), Pattern(v))
  {
    var c :| c in v && Escaped(c);
    OwnListLacks(v, c);
    hide Like, EncodeList, Escaped;
    assert c in Pattern(v) by {
      var k :| 0 <= k < |v| && v[k] == c;
      assert Pattern(v)[k + 2] == c;
    }
    if Like(EncodeList([v]), Pattern(v)) {
      LikeNeeds(EncodeList([v]), Pattern(v), c);
    }
  }

  lemma OwnListLacks(v: string, c: char)
    requires Escaped(c) && c in v && HasPattern(v)
    ensures c !in EncodeList([v]) && c != '%' && c != '_' && !Letter(c)
  {
    hide EscapeAll;
    EscapedNeverRaw(v, c);
    assert EncodeList([v]) == "[" + ("\"" + EscapeAll(v) + "\"") + "]";
  }

  /** Some heartbeat gives a status the filter wants; otherwise nothing is ever selected. */
  ghost predicate Attainable(wanted: string, now: int, ttl: int) {
    exists heartbeat: int :: StatusAllowed(ComputeStatus(heartbeat, now, ttl), wanted)
  }

  lemma {:induction false} PrefilterKeeps(table: seq<Agent>, f: Filter, now: int, ttl: int, lower: string -> string)
    requires forall a | a in table && Wanted(a, f, now, ttl, lower) :: Coarse(a, f)
    ensures Discovered(table, f, now, ttl, lower) == Selected(table, f, now, ttl, lower)
  {
    if table != [] {
      var (front, a) := (table[..|table| - 1], table[|table| - 1]);
      assert table == front + [a];
      PrefilterKeeps(front, f, now, ttl, lower);
      hide Wanted, Coarse;
      if Coarse(a, f) {
        assert (Listed(front, f) + [a])[..|Listed(front, f)|] == Listed(front, f);
      }
    }
  }

  lemma ExactWhenSearchable(table: seq<Agent>, f: Filter, now: int, ttl: int, lower: string -> string)
    requires (Searchable(f.capability) && Searchable(f.tag)) || !Attainable(f.status, now, ttl)
    ensures Discovered(table, f, now, ttl, lower) == Selected(table, f, now, ttl, lower)
  {
    forall a | a in table && Wanted(a, f, now, ttl, lower) ensures Coarse(a, f) {
      assert Attainable(f.status, now, ttl);
      if HasPattern(f.capability) {
        PatternFinds(a.caps, f.capability);
      }
      if HasPattern(f.tag) {
        PatternFinds(a.tags, f.tag);
      }
    }
    PrefilterKeeps(table, f, now, ttl, lower);
  }

  const MAX_NAME: nat := 255
  const MAX_TAG: nat := 128
  const MAX_TAGS: nat := 32

  /** What registration stores: trimmed non-blank tags, none twice, none too long; a name. */
  predicate TagList(xs: seq<string>) {
    && |xs| <= MAX_TAGS
    && (forall i | 0 <= i < |xs| :: xs[i] != "" && Text.TrimSpace(xs[i]) == xs[i] && |xs[i]| <= MAX_TAG)
    && (forall i, j | 0 <= i < j < |xs| :: xs[i] != xs[j])
  }

  predicate Registered(a: Agent) {
    && a.owner != "" && a.name != "" && Text.TrimSpace(a.name) == a.name && |a.name| <= MAX_NAME
    && Text.TrimSpace(a.model) == a.model && |a.model| <= MAX_NAME
    && TagList(a.caps) && TagList(a.tags)
  }

  /** normalizeTags: trimmed, blank and overlong ones dropped, first occurrences in order. */
  method NormalizeTags(xs: seq<string>) returns (out: seq<string>)
    ensures out == Tags(xs)
  {
    hide Text.TrimSpace;
    assert Tags(xs[..0]) == [];
    hide Tags;
    out := [];
    var seen := {};
    for i := 0 to |xs|
      invariant (forall v :: v in seen <==> v in out) && out == Tags(xs[..i])
    {
      TagsGrow(xs, i);
      var v := Text.TrimSpace(xs[i]);
      if v == "" || |v| > MAX_TAG || v in seen {
        continue;
      }
      seen := seen + {v};
      out := out + [v];
    }
    assert xs[..|xs|] == xs;
  }

  function Short(xs: seq<string>): seq<string> {
    if xs == [] then [] else Short(xs[..|xs| - 1]) + if |xs[|xs| - 1]| <= 128 then [xs[|xs| - 1]] else []
  }

  function Tags(xs: seq<string>): seq<string> { Distinct(Short(Cleaned(xs))) }

  lemma TagsGrow(xs: seq<string>, i: nat)
    requires i < |xs|
    ensures var (v, before) := (Text.TrimSpace(xs[i]), Tags(xs[..i]));
            Tags(xs[..i + 1]) == if v == "" || |v| > 128 || v in before then before else before + [v]
  {
    var (v, c) := (Text.TrimSpace(xs[i]), Cleaned(xs[..i]));
    assert xs[..i + 1][..i] == xs[..i];
    assert (c + [v])[..|c|] == c;
    DistinctGrows(Short(c), v);
    assert Short(c) + [] == Short(c);
    hide Distinct, Text.TrimSpace;
  }

  lemma NoTags()
    ensures Tags([]) == []
  {
    assert Cleaned([]) == [] && Short([]) == [] && Distinct([]) == [];
  }

  lemma {:induction false} TagMembers(xs: seq<string>, v: string)
    ensures v in Tags(xs) <==> |v| <= 128 && v != "" && exists i :: 0 <= i < |xs| && Text.TrimSpace(xs[i]) == v
  {
    hide Text.TrimSpace, Tags;
    NoTags();
    if xs != [] {
      var i := |xs| - 1;
      TagMembers(xs[..i], v);
      TagsGrow(xs, i);
      assert xs[..i + 1] == xs;
      if v in Tags(xs[..i]) {
        var k :| 0 <= k < i && Text.TrimSpace(xs[..i][k]) == v;
        assert Text.TrimSpace(xs[k]) == v;
      } else if k :| 0 <= k < i && Text.TrimSpace(xs[k]) == v {
        assert Text.TrimSpace(xs[..i][k]) == v;
      }
      assert Text.TrimSpace(xs[i]) == Text.TrimSpace(xs[i]);
    }
  }

  /** What comes out is a tag list, but for their number. */
  lemma TagsAreTags(xs: seq<string>)
    requires |Tags(xs)| <= MAX_TAGS
    ensures TagList(Tags(xs))
  {
    DistinctHasNoRepeats(Short(Cleaned(xs)));
    assert NoRepeats(Tags(xs));
    hide Tags, Text.TrimSpace;
    var out := Tags(xs);
    forall j | 0 <= j < |out| ensures out[j] != "" && Text.TrimSpace(out[j]) == out[j] && |out[j]| <= MAX_TAG {
      assert out[j] in out;
      TagMembers(xs, out[j]);
      var k :| 0 <= k < |xs| && Text.TrimSpace(xs[k]) == out[j];
      Text.TrimSpaceIdempotent(xs[k]);
    }
  }

  /** A tag list goes through unchanged. */
  lemma {:induction false} TagListStays(xs: seq<string>)
    requires TagList(xs)
    ensures Tags(xs) == xs
  {
    hide Text.TrimSpace, Tags;
    NoTags();
    if xs != [] {
      var i := |xs| - 1;
      assert TagList(xs[..i]);
      assert xs[i] !in xs[..i] && xs[i] != "" && |xs[i]| <= 128 && Text.TrimSpace(xs[i]) == xs[i];
      hide TagList;
      TagListStays(xs[..i]);
      TagsGrow(xs, i);
      assert xs[..i + 1] == xs && xs == xs[..i] + [xs[i]];
    }
  }

  /** RegisterCommand's validation, the address and version aside (`restOk`), and the agent it stores. */
  method Register(c: Agent, restOk: bool) returns (r: Option<Agent>)
    ensures r.Some? ==> Registered(r.value) && r.value == c.(name := Text.TrimSpace(c.name), model := Text.TrimSpace(c.model),
                                                             caps := Tags(c.caps), tags := Tags(c.tags))
    ensures r.Some? <==> restOk && c.owner != "" && Text.TrimSpace(c.name) != "" && |Text.TrimSpace(c.name)| <= 255
                         && |Text.TrimSpace(c.model)| <= 255 && |Tags(c.caps)| <= 32 && |Tags(c.tags)| <= 32
    ensures Registered(c) && restOk ==> r == Some(c)
  {
    hide Text.TrimSpace, Tags;
    var (name, model) := (Text.TrimSpace(c.name), Text.TrimSpace(c.model));
    var caps := NormalizeTags(c.caps);
    var tags := NormalizeTags(c.tags);
    Text.TrimSpaceIdempotent(c.name);
    Text.TrimSpaceIdempotent(c.model);
    if Registered(c) {
      TagListStays(c.caps);
      TagListStays(c.tags);
    }
    hide TagList;
    if c.owner == "" || name == "" || |name| > MAX_NAME || !restOk || |model| > MAX_NAME {
      return None;
    }
    if |caps| > MAX_TAGS || |tags| > MAX_TAGS {
      return None;
    }
    TagsAreTags(c.caps);
    TagsAreTags(c.tags);
    return Some(c.(name := name, model := model, caps := caps, tags := tags));
  }

  /** A filter after its own trimming whose values an agent can have at all. */
  predicate Reachable(f: Filter) {
    && Text.TrimSpace(f.capability) == f.capability && |f.capability| <= MAX_TAG
    && Text.TrimSpace(f.tag) == f.tag && |f.tag| <= MAX_TAG
    && Text.TrimSpace(f.query) == f.query && |f.query| <= MAX_NAME
  }

  function One(v: string): seq<string> { if v == "" then [] else [v] }

  /** For any filter that is not searchable: the agent, under any id and owner the filter admits, that the filter
      wants and the prefilter misses. It is one that registration stores whenever the filter's values are. */
  lemma MissedWhenNotSearchable(f: Filter, now: int, ttl: int, lower: string -> string, id: string, owner: string)
    returns (a: Agent)
    requires !(Searchable(f.capability) && Searchable(f.tag)) && Attainable(f.status, now, ttl)
    requires (f.exclude != "" ==> id != f.exclude) && (f.owner != "" ==> owner == f.owner)
    ensures a.id == id && a.owner == owner
    ensures Selected([a], f, now, ttl, lower) == [Stamped(a, now, ttl)]
    ensures Discovered([a], f, now, ttl, lower) == []
    ensures Reachable(f) && owner != "" ==> Registered(a)
  {
    var heartbeat :| StatusAllowed(ComputeStatus(heartbeat, now, ttl), f.status);
    a := Agent(id, owner, if f.query == "" then "a" else f.query, "", One(f.capability), One(f.tag), heartbeat, "");
    WitnessIsWanted(f, now, ttl, lower, a);
    WitnessIsRegistered(f, a);
    if !Searchable(f.capability) {
      PatternMisses(f.capability);
    } else {
      PatternMisses(f.tag);
    }
    SelectedOne(a, f, now, ttl, lower);
  }

  lemma WitnessIsWanted(f: Filter, now: int, ttl: int, lower: string -> string, a: Agent)
    requires (f.exclude != "" ==> a.id != f.exclude) && (f.owner != "" ==> a.owner == f.owner)
    requires (f.query != "" ==> a.name == f.query) && a.caps == One(f.capability) && a.tags == One(f.tag)
    requires StatusAllowed(ComputeStatus(a.heartbeat, now, ttl), f.status)
    ensures Wanted(a, f, now, ttl, lower)
  {
    assert lower(a.name)[0..|lower(a.name)|] == lower(a.name);
    assert At(lower(a.name), lower(a.name), 0);
    hide ComputeStatus, StatusAllowed;
  }

  lemma WitnessIsRegistered(f: Filter, a: Agent)
    requires a.name == (if f.query == "" then "a" else f.query) && a.model == "" && a.caps == One(f.capability) && a.tags == One(f.tag)
    ensures Reachable(f) && a.owner != "" ==> Registered(a)
  {
    assert Text.TrimSpace("") == "";
    assert Text.TrimLeft("a") == "a" && Text.TrimRight("a") == "a";
    assert Text.TrimSpace("a") == "a";
  }

  /** A table of one row, through the plain filter and through the prefilter. */
  lemma SelectedOne(a: Agent, f: Filter, now: int, ttl: int, lower: string -> string)
    ensures Wanted(a, f, now, ttl, lower) ==> Selected([a], f, now, ttl, lower) == [Stamped(a, now, ttl)]
    ensures !Coarse(a, f) ==> Discovered([a], f, now, ttl, lower) == []
  {
    hide Wanted, Coarse, Stamped;
    assert [a][..0] == [];
    assert Selected([], f, now, ttl, lower) == [] && Listed([], f) == [];
  }

  /** For instance, asking for the capability "R&D" never finds the agent that has it. */
  lemma AmpersandIsMissed(now: int, lower: string -> string)
    requires now >= 0
    ensures var (f, a) := (Filter("", "R&D", "", "", "", ""),
                           Agent("1", "o", "n", "", ["R&D"], [], now / SECOND + 1, ""));
            && Registered(a) && Selected([a], f, now, 60 * SECOND, lower) == [Stamped(a, now, 60 * SECOND)]
            && Discovered([a], f, now, 60 * SECOND, lower) == []
  {
    var (f, a) := (Filter("", "R&D", "", "", "", ""), Agent("1", "o", "n", "", ["R&D"], [], now / SECOND + 1, ""));
    assert "R&D"[1] == '&' && Escaped('&');
    assert !Searchable("R&D");
    PatternMisses("R&D");
    assert Wanted(a, f, now, 60 * SECOND, lower) && !Coarse(a, f);
    SelectedOne(a, f, now, 60 * SECOND, lower);
    AmpersandIsRegistered(a);
    hide Wanted, Coarse, Registered;
  }

  lemma AmpersandIsRegistered(a: Agent)
    requires a.owner == "o" && a.name == "n" && a.model == "" && a.caps == ["R&D"] && a.tags == []
    ensures Registered(a)
  {
    assert Text.TrimLeft("n") == "n" && Text.TrimRight("n") == "n" && Text.TrimSpace("") == "";
    assert Text.TrimLeft("R&D") == "R&D" && Text.TrimRight("R&D") == "R&D";
  }

  ghost predicate AllRegistered(table: seq<Agent>) { forall a | a in table :: Registered(a) }

  /** Restricted to tables that registration can build, the condition is the same for every filter whose values an
      agent can have. */
  lemma ExactOnRegistered(f: Filter, now: int, ttl: int, lower: string -> string)
    requires Reachable(f)
    ensures (forall table | AllRegistered(table) ::
               Discovered(table, f, now, ttl, lower) == Selected(table, f, now, ttl, lower))
            <==> (Searchable(f.capability) && Searchable(f.tag)) || !Attainable(f.status, now, ttl)
  {
    if (Searchable(f.capability) && Searchable(f.tag)) || !Attainable(f.status, now, ttl) {
      forall table | AllRegistered(table)
        ensures Discovered(table, f, now, ttl, lower) == Selected(table, f, now, ttl, lower)
      {
        ExactWhenSearchable(table, f, now, ttl, lower);
      }
    } else {
      var owner := if f.owner == "" then "o" else f.owner;
      assert |f.exclude + "x"| != |f.exclude|;
      var a := MissedWhenNotSearchable(f, now, ttl, lower, f.exclude + "x", owner);
      assert AllRegistered([a]);
      assert Discovered([a], f, now, ttl, lower) != Selected([a], f, now, ttl, lower);
    }
  }

  /** Discovery equals the plain filter on every table exactly when both exact-match values are searchable (or no
      heartbeat could pass the status filter at all). */
  lemma DiscoverIsExact(f: Filter, now: int, ttl: int, lower: string -> string)
    ensures (forall table :: Discovered(table, f, now, ttl, lower) == Selected(table, f, now, ttl, lower))
            <==> (Searchable(f.capability) && Searchable(f.tag)) || !Attainable(f.status, now, ttl)
  {
    if (Searchable(f.capability) && Searchable(f.tag)) || !Attainable(f.status, now, ttl) {
      forall table ensures Discovered(table, f, now, ttl, lower) == Selected(table, f, now, ttl, lower) {
        ExactWhenSearchable(table, f, now, ttl, lower);
      }
    } else {
      assert |f.exclude + "x"| != |f.exclude|;
      var a := MissedWhenNotSearchable(f, now, ttl, lower, f.exclude + "x", f.owner);
      assert Discovered([a], f, now, ttl, lower) != Selected([a], f, now, ttl, lower);
    }
  }

  /** With the default status filter that proviso is just a lease time of zero or less. */
  lemma DefaultAttainable(now: int, ttl: int)
    requires now >= 0
    ensures Attainable("", now, ttl) <==> ttl > 0
  {
    if ttl > 0 {
      assert StatusAllowed(ComputeStatus(now / SECOND + 1, now, ttl), "");
    }
  }

  // ---------- the use case ----------

  method List(table: seq<Agent>, f: Filter) returns (rows: seq<Agent>)
    ensures rows == Listed(table, f)
  {
    rows := [];
    for i := 0 to |table|
      invariant rows == Listed(table[..i], f)
    {
      assert table[..i + 1][..i] == table[..i];
      var a := table[i];
      var keep := (f.owner == "" || a.owner == f.owner) && (f.exclude == "" || a.id != f.exclude);
      if HasPattern(f.capability) {
        keep := keep && Like(EncodeList(a.caps), Pattern(f.capability));
      }
      if HasPattern(f.tag) {
        keep := keep && Like(EncodeList(a.tags), Pattern(f.tag));
      }
      if keep {
        rows := rows + [a];
      }
    }
    assert table[..|table|] == table;
  }

  /** strings.Contains. */
  method Find(s: string, sub: string) returns (found: bool)
    ensures found <==> Contains(s, sub)
  {
    var i := 0;
    while i + |sub| <= |s|
      invariant forall j: nat | j < i :: !At(s, sub, j)
    {
      if s[i..i + |sub|] == sub {
        assert At(s, sub, i);
        return true;
      }
      i := i + 1;
    }
    return false;
  }

  method FindAny(list: seq<string>, sub: string, lower: string -> string) returns (found: bool)
    ensures found <==> exists c :: c in list && Contains(lower(c), sub)
  {
    for i := 0 to |list|
      invariant forall c | c in list[..i] :: !Contains(lower(c), sub)
    {
      found := Find(lower(list[i]), sub);
      if found {
        return;
      }
    }
    assert list[..|list|] == list;
    return false;
  }

  method CheckQuery(a: Agent, query: string, lower: string -> string) returns (ok: bool)
    ensures ok <==> MatchesQuery(a, query, lower)
  {
    var q := lower(query);
    ok := Find(lower(a.name), q);
    if !ok {
      ok := Find(lower(a.model), q);
    }
    if !ok {
      ok := FindAny(a.caps, q, lower);
    }
    if !ok {
      ok := FindAny(a.tags, q, lower);
    }
  }

  method CheckMatch(a: Agent, f: Filter, lower: string -> string) returns (ok: bool)
    ensures ok <==> Matches(a, f, lower)
  {
    if f.owner != "" && a.owner != f.owner {
      return false;
    }
    if f.exclude != "" && a.id == f.exclude {
      return false;
    }
    if f.capability != "" && f.capability !in a.caps {
      return false;
    }
    if f.tag != "" && f.tag !in a.tags {
      return false;
    }
    ok := true;
    if f.query != "" {
      ok := CheckQuery(a, f.query, lower);
    }
  }

  lemma SelectedGrows(rows: seq<Agent>, i: nat, f: Filter, now: int, ttl: int, lower: string -> string)
    requires i < |rows|
    ensures Selected(rows[..i + 1], f, now, ttl, lower)
         == Selected(rows[..i], f, now, ttl, lower)
          + if Wanted(rows[i], f, now, ttl, lower) then [Stamped(rows[i], now, ttl)] else []
  {
    hide Wanted, Stamped;
    assert rows[..i + 1][..i] == rows[..i];
  }

  /** The compaction of Discover: the kept rows are written over the front of the array that is being read. */
  method Compact(rows: array<Agent>, f: Filter, now: int, ttl: int, lower: string -> string) returns (n: nat)
    modifies rows
    ensures n <= rows.Length && rows[..n] == Selected(old(rows[..]), f, now, ttl, lower)
  {
    n := 0;
    ghost var all := rows[..];
    for i := 0 to rows.Length
      invariant n <= i && forall k | i <= k < rows.Length :: rows[k] == all[k]
      invariant rows[..n] == Selected(all[..i], f, now, ttl, lower)
    {
      SelectedGrows(all, i, f, now, ttl, lower);
      hide Selected, Matches, StatusAllowed;
      var a := rows[i];
      assert a == all[i];
      var ok := CheckMatch(a, f, lower);
      if !ok {
        continue;
      }
      var stamped := Stamped(a, now, ttl);
      if !StatusAllowed(stamped.status, f.status) {
        continue;
      }
      ghost var kept := rows[..n];
      rows[n] := stamped;
      n := n + 1;
      assert rows[..n] == kept + [stamped];
    }
    assert all[..rows.Length] == all;
  }

  /** The plain filter row by row: which rows are kept, in which order. */
  lemma {:induction false} SelectedInOrder(rows: seq<Agent>, f: Filter, now: int, ttl: int, lower: string -> string)
    returns (idx: seq<int>)
    requires f.status in ["", "online", "stale", "offline"]
    ensures Ascending(idx, |rows|) && |idx| == |Selected(rows, f, now, ttl, lower)|
    ensures forall k | 0 <= k < |idx| ::
              Selected(rows, f, now, ttl, lower)[k] == Stamped(rows[idx[k]], now, ttl)
    ensures forall i | 0 <= i < |rows| ::
              i in idx <==> Matches(rows[i], f, lower) && Asked(f.status, rows[i].heartbeat, now, ttl)
  {
    if rows == [] {
      idx := [];
    } else {
      var (front, a) := (rows[..|rows| - 1], rows[|rows| - 1]);
      idx := SelectedInOrder(front, f, now, ttl, lower);
      StatusIsLiveness(a.heartbeat, now, ttl);
      hide Matches, Asked, ComputeStatus, StatusAllowed;
      if Wanted(a, f, now, ttl, lower) {
        idx := idx + [|rows| - 1];
      }
    }
  }

  /** What a stamped row says. */
  predicate SaysLiveness(b: Agent, now: int, ttl: int) {
    b.status == if WithinLease(b.heartbeat, now, ttl) then "online" else if Lapsing(b.heartbeat, now, ttl) then "stale" else "offline"
  }

  lemma StampSaysLiveness(a: Agent, now: int, ttl: int)
    ensures SaysLiveness(Stamped(a, now, ttl), now, ttl) && Stamped(a, now, ttl) == a.(status := Stamped(a, now, ttl).status)
  {
    StatusIsLiveness(a.heartbeat, now, ttl);
  }

  /** Every selected row says its liveness; and a matching row of the table is selected, under its liveness, exactly if
      the filter asks for it. */
  lemma SelectedByLiveness(rows: seq<Agent>, f: Filter, now: int, ttl: int, lower: string -> string)
    requires f.status in ["", "online", "stale", "offline"]
    ensures forall b | b in Selected(rows, f, now, ttl, lower) :: SaysLiveness(b, now, ttl)
    ensures forall a | a in rows && Matches(a, f, lower) ::
              (exists b :: b in Selected(rows, f, now, ttl, lower) && b == a.(status := b.status)) <==> Asked(f.status, a.heartbeat, now, ttl)
  {
    var idx := SelectedInOrder(rows, f, now, ttl, lower);
    var sel := Selected(rows, f, now, ttl, lower);
    forall k | 0 <= k < |idx| ensures SaysLiveness(sel[k], now, ttl) && sel[k] == rows[idx[k]].(status := sel[k].status) {
      StampSaysLiveness(rows[idx[k]], now, ttl);
    }
    hide Selected, Stamped, SaysLiveness, Asked, Matches;
    forall a | a in rows && Matches(a, f, lower)
      ensures (exists b :: b in sel && b == a.(status := b.status)) <==> Asked(f.status, a.heartbeat, now, ttl)
    {
      var i :| 0 <= i < |rows| && rows[i] == a;
      if i in idx {
        var k :| 0 <= k < |idx| && idx[k] == i;
        assert sel[k] in sel;
      }
      if b :| b in sel && b == a.(status := b.status) {
        var k :| 0 <= k < |sel| && sel[k] == b;
        assert idx[k] in idx && rows[idx[k]].heartbeat == a.heartbeat;
      }
    }
  }

  datatype Result = Found(rows: seq<Agent>) | BadStatus | ListFailed

  /** Discover on a normalised filter; the table is in name order, the order List asks for. */
  method Discover(table: seq<Agent>, f: Filter, listFails: bool, now: int, ttl: int, lower: string -> string)
    returns (r: Result)
    ensures r.BadStatus? <==> f.status !in ["", "online", "stale", "offline"]
    ensures r.ListFailed? <==> listFails && !r.BadStatus?
    ensures r.Found? ==> r.rows == Discovered(table, f, now, ttl, lower)
    ensures r.Found? && Searchable(f.capability) && Searchable(f.tag) ==> r.rows == Selected(table, f, now, ttl, lower)
    ensures r.Found? ==> forall b | b in r.rows :: SaysLiveness(b, now, ttl)
    ensures r.Found? && Searchable(f.capability) && Searchable(f.tag) ==>
              forall a | a in table && Matches(a, f, lower) ::
                (exists b :: b in r.rows && b == a.(status := b.status)) <==> Asked(f.status, a.heartbeat, now, ttl)
  {
    if f.status != "" && f.status != "online" && f.status != "stale" && f.status != "offline" {
      return BadStatus;
    }
    if listFails {
      return ListFailed;
    }
    var listed := List(table, f);
    var rows := new Agent[|listed|](i requires 0 <= i < |listed| => listed[i]);
    assert rows[..] == listed;
    var n := Compact(rows, f, now, ttl, lower);
    SelectedByLiveness(listed, f, now, ttl, lower);
    SelectedByLiveness(table, f, now, ttl, lower);
    hide Matches, Asked, SaysLiveness, Listed, Selected;
    if Searchable(f.capability) && Searchable(f.tag) {
      ExactWhenSearchable(table, f, now, ttl, lower);
    }
    return Found(rows[..n]);
  }
}
