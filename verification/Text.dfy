/** Strings as the Go code uses them: decimal numerals, fixed-width fields, separators,
    the byte order behind `a <= b`, and strings.TrimSpace. */
module Text {

  // ---------- decimal numerals ----------

  function DigitChar(d: nat): char
    requires d < 10
  {
    ('0' as int + d) as char
  }

  predicate IsDigits(s: string) {
    forall c | c in s :: '0' <= c <= '9'
  }

  /** strconv.Itoa on a natural number. */
  function Decimal(n: nat): string {
    if n < 10 then [DigitChar(n)] else Decimal(n / 10) + [DigitChar(n % 10)]
  }

  /** "%0<width>d": at least `width` digits, zeros in front. */
  function Padded(n: nat, width: nat): string { ZeroFill(Decimal(n), width) }

  function ZeroFill(s: string, width: nat): string
    decreases width - |s|
  {
    if |s| >= width then s else ZeroFill(['0'] + s, width)
  }

  lemma {:induction false} DecimalIsDigits(n: nat)
    ensures |Decimal(n)| > 0 && IsDigits(Decimal(n))
  {
    if n >= 10 {
      DecimalIsDigits(n / 10);
    }
  }

  lemma {:induction false} ZeroFillIsDigits(s: string, width: nat)
    requires |s| > 0 && IsDigits(s)
    ensures |ZeroFill(s, width)| >= width && |ZeroFill(s, width)| >= |s| && IsDigits(ZeroFill(s, width))
    decreases width - |s|
  {
    if |s| < width {
      ZeroFillIsDigits(['0'] + s, width);
    }
  }

  lemma PaddedIsDigits(n: nat, width: nat)
    ensures |Padded(n, width)| >= width && |Padded(n, width)| > 0 && IsDigits(Padded(n, width))
  {
    DecimalIsDigits(n);
    ZeroFillIsDigits(Decimal(n), width);
  }

  /** The number a digit string denotes; the inverse of Decimal and Padded. */
  function Value(s: string): int {
    if s == [] then 0 else 10 * Value(s[..|s| - 1]) + (s[|s| - 1] as int - '0' as int)
  }

  lemma {:induction false} DecimalValue(n: nat)
    ensures Value(Decimal(n)) == n
  {
    if n >= 10 {
      DecimalValue(n / 10);
      var s := Decimal(n);
      assert s[..|s| - 1] == Decimal(n / 10);
    }
  }

  lemma {:induction false} LeadingZero(s: string)
    ensures Value(['0'] + s) == Value(s)
  {
    if s != [] {
      var z := ['0'] + s;
      assert z[..|z| - 1] == ['0'] + s[..|s| - 1];
      LeadingZero(s[..|s| - 1]);
    }
  }

  lemma {:induction false} ZeroFillValue(s: string, width: nat)
    ensures Value(ZeroFill(s, width)) == Value(s)
    decreases width - |s|
  {
    if |s| < width {
      LeadingZero(s);
      ZeroFillValue(['0'] + s, width);
    }
  }

  /** A zero-padded field still determines its number. */
  lemma PaddedInjective(a: nat, b: nat, width: nat)
    ensures Padded(a, width) == Padded(b, width) <==> a == b
  {
    DecimalValue(a);
    DecimalValue(b);
    ZeroFillValue(Decimal(a), width);
    ZeroFillValue(Decimal(b), width);
  }

  lemma DecimalInjective(a: nat, b: nat)
    ensures Decimal(a) == Decimal(b) <==> a == b
  {
    DecimalValue(a);
    DecimalValue(b);
  }

  /** Decimal writes no leading zero, and a field of two or four is exactly that wide for numbers that fit. */
  lemma {:induction false} NoLeadingZero(n: nat)
    requires n > 0
    ensures Decimal(n) != [] && Decimal(n)[0] != '0'
  {
    if n >= 10 {
      NoLeadingZero(n / 10);
    }
  }

  lemma PaddedToTwo(n: nat)
    requires n < 100
    ensures |Padded(n, 2)| == 2
  {
    if n < 10 {
      assert ZeroFill(Decimal(n), 2) == ZeroFill(['0'] + Decimal(n), 2) == ['0'] + Decimal(n);
    } else {
      assert |Decimal(n / 10)| == 1;
    }
  }

  lemma PaddedToFour(n: nat)
    requires n < 10000
    ensures |Padded(n, 4)| == 4
  {
    assert n >= 10 ==> |Decimal(n)| == |Decimal(n / 10)| + 1;
    assert n >= 100 ==> |Decimal(n / 10)| == |Decimal(n / 10 / 10)| + 1;
    assert n >= 1000 ==> |Decimal(n / 10 / 10)| == |Decimal(n / 10 / 10 / 10)| + 1;
    FillsUp(Decimal(n), 4);
  }

  lemma {:induction false} FillsUp(s: string, width: nat)
    requires |s| <= width
    ensures |ZeroFill(s, width)| == width
    decreases width - |s|
  {
    if |s| < width {
      FillsUp(['0'] + s, width);
    }
  }

  // ---------- separators ----------

  /** Text before the first separator and text after it are both recoverable. */
  lemma SplitUnique(a: string, b: string, c: string, d: string, sep: char)
    requires sep !in a && sep !in c
    requires a + [sep] + b == c + [sep] + d
    ensures a == c && b == d
  {
    var s := a + [sep] + b;
    FirstIndex(a, b, sep);
    FirstIndex(c, d, sep);
    assert |a| == |c|;
    assert a == s[..|a|] && c == s[..|a|];
    assert b == s[|a| + 1..] && d == s[|a| + 1..];
  }

  lemma FirstIndex(a: string, b: string, sep: char)
    requires sep !in a
    ensures var s := a + [sep] + b; s[|a|] == sep && forall k :: 0 <= k < |a| ==> s[k] != sep
  {
    forall k | 0 <= k < |a| ensures (a + [sep] + b)[k] != sep {
      assert a[k] in a;
    }
  }

  lemma LastIndex(a: string, b: string, sep: char)
    requires sep !in b
    ensures var s := a + [sep] + b; s[|a|] == sep && forall k :: |a| < k < |s| ==> s[k] != sep
  {
    forall k | |a| < k < |a| + 1 + |b| ensures (a + [sep] + b)[k] != sep {
      assert b[k - |a| - 1] in b;
    }
  }

  /** The same from the right: text after the last separator is recoverable. */
  lemma SplitLastUnique(a: string, b: string, c: string, d: string, sep: char)
    requires sep !in b && sep !in d
    requires a + [sep] + b == c + [sep] + d
    ensures a == c && b == d
  {
    var s := a + [sep] + b;
    LastIndex(a, b, sep);
    LastIndex(c, d, sep);
    assert |a| == |c|;
    assert a == s[..|a|] && c == s[..|a|];
    assert b == s[|a| + 1..] && d == s[|a| + 1..];
  }

  // ---------- string order ----------

  /** Go's `a <= b` on strings: lexicographic. */
  predicate StrLe(a: string, b: string) {
    a == [] || (b != [] && (a[0] < b[0] || (a[0] == b[0] && StrLe(a[1..], b[1..]))))
  }

  lemma {:induction false} StrLeTotal(a: string, b: string)
    ensures StrLe(a, b) || StrLe(b, a)
  {
    if a != [] && b != [] && a[0] == b[0] {
      StrLeTotal(a[1..], b[1..]);
    }
  }

  lemma {:induction false} StrLeAntisymmetric(a: string, b: string)
    requires StrLe(a, b) && StrLe(b, a)
    ensures a == b
  {
    if a != [] && b != [] {
      StrLeAntisymmetric(a[1..], b[1..]);
      assert a == [a[0]] + a[1..];
      assert b == [b[0]] + b[1..];
    }
  }

  /** The order is lexicographic: a prefix comes first, otherwise the first difference decides. */
  lemma {:induction false} StrLeIsLexicographic(a: string, b: string)
    ensures StrLe(a, b) <==> a <= b || exists i: nat :: FirstDifference(a, b, i) && a[i] < b[i]
  {
    SameFirst(a, b);
    if a != [] && b != [] {
      if a[0] == b[0] {
        StrLeIsLexicographic(a[1..], b[1..]);
        SameHead(a, b);
        hide FirstDifference;
      } else {
        assert FirstDifference(a, b, 0);
      }
    }
  }

  lemma SameFirst(a: string, b: string)
    ensures forall i: nat | i > 0 && FirstDifference(a, b, i) :: a != [] && b != [] && a[0] == b[0]
  {
    forall i: nat | i > 0 && FirstDifference(a, b, i) ensures a != [] && b != [] && a[0] == b[0] {
      assert a[..i][0] == b[..i][0];
    }
  }

  /** Behind equal heads the first difference is where the tails have theirs. */
  lemma SameHead(a: string, b: string)
    requires a != [] && b != [] && a[0] == b[0]
    ensures a <= b <==> a[1..] <= b[1..]
    ensures (exists i: nat :: FirstDifference(a, b, i) && a[i] < b[i])
       <==> (exists i: nat :: FirstDifference(a[1..], b[1..], i) && a[1..][i] < b[1..][i])
  {
    assert a == [a[0]] + a[1..] && b == [b[0]] + b[1..];
    if i: nat :| FirstDifference(a, b, i) && a[i] < b[i] {
      assert a[1..][..i - 1] == a[..i][1..] && b[1..][..i - 1] == b[..i][1..];
      assert FirstDifference(a[1..], b[1..], i - 1) && a[1..][i - 1] < b[1..][i - 1];
    }
    if i: nat :| FirstDifference(a[1..], b[1..], i) && a[1..][i] < b[1..][i] {
      assert a[..i + 1] == [a[0]] + a[1..][..i] && b[..i + 1] == [b[0]] + b[1..][..i];
      assert FirstDifference(a, b, i + 1) && a[i + 1] < b[i + 1];
    }
  }

  predicate FirstDifference(a: string, b: string, i: nat) {
    i < |a| && i < |b| && a[..i] == b[..i] && a[i] != b[i]
  }

  // ---------- TrimSpace ----------

  /** unicode.IsSpace. */
  predicate IsSpace(c: char) {
    var n := c as int;
    (0x09 <= n <= 0x0D) || n == 0x20 || n == 0x85 || n == 0xA0 || n == 0x1680
    || (0x2000 <= n <= 0x200A) || n == 0x2028 || n == 0x2029 || n == 0x202F || n == 0x205F || n == 0x3000
  }

  /** The code points of Unicode's White_Space property, one by one. */
  const SPACES: seq<int> := [9, 10, 11, 12, 13, 32, 133, 160, 5760, 8192, 8193, 8194, 8195, 8196, 8197, 8198, 8199, 8200, 8201,
                             8202, 8232, 8233, 8239, 8287, 12288]

  lemma SpacesAreListed(c: char)
    ensures IsSpace(c) <==> c as int in SPACES
  {
  }

  predicate AllSpace(s: string) { forall c | c in s :: IsSpace(c) }

  function TrimLeft(s: string): string {
    if s != [] && IsSpace(s[0]) then TrimLeft(s[1..]) else s
  }

  function TrimRight(s: string): (r: string)
    ensures r <= s
  {
    if s != [] && IsSpace(s[|s| - 1]) then TrimRight(s[..|s| - 1]) else s
  }

  /** strings.TrimSpace: the result neither starts nor ends with white space. */
  function TrimSpace(s: string): (r: string)
    ensures r != [] ==> !IsSpace(r[0]) && !IsSpace(r[|r| - 1])
  {
    TrimEnds(s);
    TrimRight(TrimLeft(s))
  }

  lemma {:induction false} TrimLeftHead(s: string)
    ensures TrimLeft(s) != [] ==> !IsSpace(TrimLeft(s)[0])
  {
    if s != [] && IsSpace(s[0]) {
      TrimLeftHead(s[1..]);
    }
  }

  lemma {:induction false} TrimRightLast(s: string)
    ensures TrimRight(s) != [] ==> !IsSpace(TrimRight(s)[|TrimRight(s)| - 1])
  {
    if s != [] && IsSpace(s[|s| - 1]) {
      TrimRightLast(s[..|s| - 1]);
    }
  }

  lemma TrimEnds(s: string)
    ensures var r := TrimRight(TrimLeft(s)); r != [] ==> !IsSpace(r[0]) && !IsSpace(r[|r| - 1])
  {
    TrimLeftHead(s);
    TrimRightLast(TrimLeft(s));
  }

  /** What TrimSpace takes off is white space, and all of it at both ends. */
  lemma TrimSpaceTakesEnds(s: string) returns (pre: string, post: string)
    ensures s == pre + TrimSpace(s) + post && AllSpace(pre) && AllSpace(post)
  {
    pre := LeftPart(s);
    post := RightPart(TrimLeft(s));
  }

  lemma {:induction false} LeftPart(s: string) returns (pre: string)
    ensures s == pre + TrimLeft(s) && AllSpace(pre)
  {
    if s != [] && IsSpace(s[0]) {
      var rest := LeftPart(s[1..]);
      pre := [s[0]] + rest;
      assert s == [s[0]] + s[1..];
    } else {
      pre := "";
    }
  }

  lemma {:induction false} RightPart(s: string) returns (post: string)
    ensures s == TrimRight(s) + post && AllSpace(post)
  {
    if s != [] && IsSpace(s[|s| - 1]) {
      var rest := RightPart(s[..|s| - 1]);
      post := rest + [s[|s| - 1]];
      assert s == s[..|s| - 1] + [s[|s| - 1]];
    } else {
      post := "";
    }
  }

  /** White space around a core that neither starts nor ends with any is exactly what is taken off. */
  lemma TrimSpaceFindsCore(pre: string, core: string, post: string)
    requires AllSpace(pre) && AllSpace(post) && core != [] && !IsSpace(core[0]) && !IsSpace(core[|core| - 1])
    ensures TrimSpace(pre + core + post) == core
  {
    LeftCore(pre, core + post);
    assert pre + core + post == pre + (core + post);
    RightCore(core, post);
  }

  lemma {:induction false} LeftCore(pre: string, rest: string)
    requires AllSpace(pre) && rest != [] && !IsSpace(rest[0])
    ensures TrimLeft(pre + rest) == rest
  {
    if pre == [] {
      assert pre + rest == rest;
    } else {
      assert (pre + rest)[1..] == pre[1..] + rest && pre[0] in pre;
      LeftCore(pre[1..], rest);
    }
  }

  lemma {:induction false} RightCore(core: string, post: string)
    requires AllSpace(post) && core != [] && !IsSpace(core[|core| - 1])
    ensures TrimRight(core + post) == core
  {
    if post == [] {
      assert core + post == core;
    } else {
      var s := core + post;
      assert s[..|s| - 1] == core + post[..|post| - 1] && post[|post| - 1] in post;
      RightCore(core, post[..|post| - 1]);
    }
  }

  /** A string is blank exactly when it is all white space. */
  lemma BlankIsAllSpace(s: string)
    ensures TrimSpace(s) == "" <==> AllSpace(s)
  {
    var pre, post := TrimSpaceTakesEnds(s);
    if TrimSpace(s) == "" {
      assert s == pre + post;
    } else {
      assert TrimSpace(s)[0] == s[|pre|] && s[|pre|] in s;
    }
  }

  lemma TrimSpaceIdempotent(s: string)
    ensures TrimSpace(TrimSpace(s)) == TrimSpace(s)
  {
    var r := TrimSpace(s);
    if r != [] {
      assert TrimLeft(r) == r;
    }
  }
}
