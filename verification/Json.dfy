/** JSON text (sections 2 to 7 of RFC 8259) as the server writes it: strings, integers and
    punctuation, and the fact that a text determines its tokens. */
module Json {

  datatype Token = Punct(c: char) | Str(s: string) | Num(n: int)

  // ---- Strings -------------------------------------------------------------------

  function HexDigit(n: int): char
    requires 0 <= n < 16
  {
    if n < 10 then ('0' as int + n) as char else ('a' as int + n - 10) as char
  }

  /** Four lower-case hexadecimal digits. */
  function Hex4(n: int): (s: string)
    requires 0 <= n < 0x1_0000
    ensures |s| == 4
  {
    [HexDigit(n / 16 / 16 / 16), HexDigit(n / 16 / 16 % 16), HexDigit(n / 16 % 16), HexDigit(n % 16)]
  }

  predicate LongEscaped(c: char) {
    (c as int) < 0x20 || c == '<' || c == '>' || c == '&' || c as int == 0x2028 || c as int == 0x2029
  }

  predicate ShortEscaped(c: char) {
    c == '\"' || c == '\\' || c == '\n' || c == '\r' || c == '\t' || c as int == 8 || c as int == 12
  }

  function ShortEscape(c: char): char
    requires ShortEscaped(c)
  {
    if c == '\n' then 'n'
    else if c == '\r' then 'r'
    else if c == '\t' then 't'
    else if c as int == 8 then 'b'
    else if c as int == 12 then 'f'
    else c
  }

  /** How one character is written inside a JSON string. */
  function Escape(c: char): (s: string)
    ensures |s| >= 1 && s[0] != '\"'
    ensures s[0] == '\\' ==> |s| >= 2
  {
    if ShortEscaped(c) then ['\\', ShortEscape(c)]
    else if LongEscaped(c) then ['\\', 'u'] + Hex4(c as int)
    else [c]
  }

  function QuoteTail(s: string): (t: string)
    ensures t != [] && (t[0] == '\"' <==> s == [])
  {
    if s == [] then ['\"'] else Escape(s[0]) + QuoteTail(s[1..])
  }

  lemma HexDigitUnique(a: int, b: int)
    requires 0 <= a < 16 && 0 <= b < 16 && HexDigit(a) == HexDigit(b)
    ensures a == b
  {
  }

  lemma DivUnique(m: int, n: int)
    requires 0 <= m && 0 <= n && m / 16 == n / 16 && m % 16 == n % 16
    ensures m == n
  {
  }

  lemma Hex4Unique(m: int, n: int)
    requires 0 <= m < 0x1_0000 && 0 <= n < 0x1_0000 && Hex4(m) == Hex4(n)
    ensures m == n
  {
    HexDigitUnique(m / 16 / 16 / 16, n / 16 / 16 / 16) by { assert Hex4(m)[0] == Hex4(n)[0]; }
    HexDigitUnique(m / 16 / 16 % 16, n / 16 / 16 % 16) by { assert Hex4(m)[1] == Hex4(n)[1]; }
    HexDigitUnique(m / 16 % 16, n / 16 % 16) by { assert Hex4(m)[2] == Hex4(n)[2]; }
    HexDigitUnique(m % 16, n % 16) by { assert Hex4(m)[3] == Hex4(n)[3]; }
    DivUnique(m / 16 / 16, n / 16 / 16);
    DivUnique(m / 16, n / 16);
    DivUnique(m, n);
  }

  lemma EscapeInjective(c: char, d: char)
    requires Escape(c) == Escape(d)
    ensures c == d
  {
    assert Escape(c)[0] == Escape(d)[0];
    if ShortEscaped(c) || ShortEscaped(d) {
      assert Escape(c)[1] == Escape(d)[1];
    } else if LongEscaped(c) && LongEscaped(d) {
      assert Escape(c)[2..] == Hex4(c as int) && Escape(d)[2..] == Hex4(d as int);
      Hex4Unique(c as int, d as int);
    }
  }

  /** The first two characters settle how long an escape is. */
  lemma EscapeLength(c: char, d: char, s: string)
    requires Escape(c) <= s && Escape(d) <= s
    ensures |Escape(c)| == |Escape(d)|
  {
    assert s[0] == Escape(c)[0] == Escape(d)[0];
    if s[0] == '\\' {
      assert s[1] == Escape(c)[1] == Escape(d)[1];
    }
  }

  /** Escapes form a prefix code. */
  lemma EscapeUnique(c: char, d: char, x: string, y: string)
    requires Escape(c) + x == Escape(d) + y
    ensures c == d && x == y
  {
    var s := Escape(c) + x;
    EscapeLength(c, d, s);
    var n := |Escape(c)|;
    assert s[..n] == Escape(c) && s[..n] == Escape(d);
    assert s[n..] == x && s[n..] == y;
    EscapeInjective(c, d);
  }

  lemma Associative<T>(a: seq<T>, u: seq<T>, x: seq<T>)
    ensures a + u + x == a + (u + x)
  {
  }

  lemma SameHeadAndTail<T>(a: seq<T>, b: seq<T>)
    requires a != [] && b != [] && a[0] == b[0] && a[1..] == b[1..]
    ensures a == b
  {
    assert a == [a[0]] + a[1..];
    assert b == [b[0]] + b[1..];
  }

  lemma {:induction false} QuoteTailUnique(a: string, b: string, x: string, y: string)
    requires QuoteTail(a) + x == QuoteTail(b) + y
    ensures a == b && x == y
  {
    var s := QuoteTail(a) + x;
    assert s[0] == QuoteTail(a)[0] == QuoteTail(b)[0];
    if a == [] {
      assert s[1..] == x && s[1..] == y;
    } else {
      var u, v := QuoteTail(a[1..]), QuoteTail(b[1..]);
      Associative(Escape(a[0]), u, x);
      Associative(Escape(b[0]), v, y);
      EscapeUnique(a[0], b[0], u + x, v + y);
      QuoteTailUnique(a[1..], b[1..], x, y);
      SameHeadAndTail(a, b);
    }
  }

  // ---- Numbers -------------------------------------------------------------------

  predicate IsDigit(c: char) {
    '0' <= c <= '9'
  }

  function Digits(n: nat): (s: string)
    ensures s != [] && forall i :: 0 <= i < |s| ==> IsDigit(s[i])
  {
    if n < 10 then [('0' as int + n) as char] else Digits(n / 10) + [('0' as int + n % 10) as char]
  }

  function Decimal(n: int): (s: string)
    ensures s != [] && (s[0] == '-' || IsDigit(s[0]))
  {
    if n < 0 then ['-'] + Digits(-n) else Digits(n)
  }

  function DigitsValue(s: string): int {
    if s == [] then 0 else DigitsValue(s[..|s| - 1]) * 10 + (s[|s| - 1] as int - '0' as int)
  }

  lemma {:induction false} DigitsRead(n: nat)
    ensures DigitsValue(Digits(n)) == n
  {
    if n >= 10 {
      DigitsRead(n / 10);
      assert Digits(n)[..|Digits(n)| - 1] == Digits(n / 10);
    } else {
      assert Digits(n)[..0] == [];
    }
  }

  predicate Ends(x: string) {
    x != [] && !IsDigit(x[0])
  }

  lemma DigitsEnd(d: string, e: string, x: string, y: string)
    requires d + x == e + y && Ends(y)
    requires forall i :: 0 <= i < |d| ==> IsDigit(d[i])
    ensures |d| <= |e|
  {
    assert (e + y)[|e|] == y[0];
    assert forall i :: 0 <= i < |d| ==> (d + x)[i] == d[i];
  }

  lemma DigitsUnique(m: nat, n: nat, x: string, y: string)
    requires Digits(m) + x == Digits(n) + y && Ends(x) && Ends(y)
    ensures m == n && x == y
  {
    DigitsEnd(Digits(m), Digits(n), x, y);
    DigitsEnd(Digits(n), Digits(m), y, x);
    var s, p := Digits(m) + x, |Digits(m)|;
    assert s[..p] == Digits(m) && s[..p] == Digits(n);
    assert s[p..] == x && s[p..] == y;
    DigitsRead(m);
    DigitsRead(n);
  }

  lemma DropHead(c: char, u: string, v: string, x: string, y: string)
    requires [c] + u + x == [c] + v + y
    ensures u + x == v + y
  {
    var s := [c] + u + x;
    assert s[1..] == u + x;
    assert s[1..] == v + y;
  }

  lemma SignShows(n: int)
    ensures Decimal(n)[0] == '-' <==> n < 0
    ensures forall x: string :: (Decimal(n) + x)[0] == Decimal(n)[0]
  {
    assert n >= 0 ==> IsDigit(Digits(n)[0]);
  }

  lemma DecimalUnique(m: int, n: int, x: string, y: string)
    requires Decimal(m) + x == Decimal(n) + y && Ends(x) && Ends(y)
    ensures m == n && x == y
  {
    SignShows(m);
    SignShows(n);
    assert (Decimal(m) + x)[0] == (Decimal(n) + y)[0];
    if m < 0 {
      DropHead('-', Digits(-m), Digits(-n), x, y);
      DigitsUnique(-m, -n, x, y);
    } else {
      DigitsUnique(m, n, x, y);
    }
  }

  // ---- Texts -----------------------------------------------------------------------

  predicate IsPunct(c: char) {
    c == '{' || c == '}' || c == '[' || c == ']' || c == ':' || c == ','
  }

  function RenderToken(t: Token): (s: string)
    ensures s != []
  {
    match t
    case Punct(c) => [c]
    case Str(s) => ['\"'] + QuoteTail(s)
    case Num(n) => Decimal(n)
  }

  function Render(ts: seq<Token>): string {
    if ts == [] then [] else RenderToken(ts[0]) + Render(ts[1..])
  }

  /** Punctuation is JSON punctuation, and every number is followed by punctuation. */
  predicate SpacedAt(ts: seq<Token>, i: nat)
    requires i < |ts|
  {
    && (ts[i].Punct? ==> IsPunct(ts[i].c))
    && (ts[i].Num? ==> i + 1 < |ts| && ts[i + 1].Punct?)
  }

  predicate WellSpaced(ts: seq<Token>) {
    forall i :: 0 <= i < |ts| ==> SpacedAt(ts, i)
  }

  lemma WellSpacedTail(ts: seq<Token>)
    requires WellSpaced(ts) && ts != []
    ensures WellSpaced(ts[1..])
    ensures ts[0].Num? ==> Ends(Render(ts[1..]))
  {
    var rest := ts[1..];
    forall i | 0 <= i < |rest|
      ensures SpacedAt(rest, i)
    {
      assert SpacedAt(ts, i + 1);
    }
    if ts[0].Num? {
      assert SpacedAt(ts, 0) && SpacedAt(ts, 1);
      assert Render(rest) == [ts[1].c] + Render(rest[1..]);
    }
  }

  lemma SameKind(t: Token, u: Token)
    requires RenderToken(t)[0] == RenderToken(u)[0]
    requires (t.Punct? ==> IsPunct(t.c)) && (u.Punct? ==> IsPunct(u.c))
    ensures (t.Punct? <==> u.Punct?) && (t.Str? <==> u.Str?)
    ensures t.Punct? ==> t == u
  {
  }

  lemma StrUnique(a: string, b: string, x: string, y: string)
    requires RenderToken(Str(a)) + x == RenderToken(Str(b)) + y
    ensures a == b && x == y
  {
    DropHead('\"', QuoteTail(a), QuoteTail(b), x, y);
    QuoteTailUnique(a, b, x, y);
  }

  lemma TokenUnique(t: Token, u: Token, x: string, y: string)
    requires RenderToken(t) + x == RenderToken(u) + y
    requires (t.Punct? ==> IsPunct(t.c)) && (u.Punct? ==> IsPunct(u.c))
    requires (t.Num? ==> Ends(x)) && (u.Num? ==> Ends(y))
    ensures t == u && x == y
  {
    var s := RenderToken(t) + x;
    assert s[0] == RenderToken(t)[0] == RenderToken(u)[0];
    SameKind(t, u);
    if t.Punct? {
      assert s[1..] == x;
      assert s[1..] == y;
    } else if t.Str? {
      StrUnique(t.s, u.s, x, y);
    } else {
      DecimalUnique(t.n, u.n, x, y);
    }
  }

  /** A text determines the tokens it was rendered from. */
  lemma {:induction false} RenderInjective(ts: seq<Token>, us: seq<Token>)
    requires WellSpaced(ts) && WellSpaced(us) && Render(ts) == Render(us)
    ensures ts == us
  {
    if ts != [] && us != [] {
      WellSpacedTail(ts);
      WellSpacedTail(us);
      assert SpacedAt(ts, 0) && SpacedAt(us, 0);
      TokenUnique(ts[0], us[0], Render(ts[1..]), Render(us[1..]));
      RenderInjective(ts[1..], us[1..]);
      SameHeadAndTail(ts, us);
    }
  }

  // ---- What the text looks like ------------------------------------------------------

  /** Value of a lower-case hexadecimal digit. */
  function HexValue(c: char): int {
    if '0' <= c <= '9' then c as int - 48 else if 'a' <= c <= 'f' then c as int - 87 else -1
  }

  /** Quotes, backslashes and the five short forms are escaped by one letter; other control
      characters, the three characters with a meaning in HTML and the two Unicode line
      separators by their code in four hexadecimal digits; everything else stays. */
  lemma EscapeExactly(c: char)
    ensures var n, e := c as int, Escape(c);
            if n in {34, 92, 8, 9, 10, 12, 13} then
              && |e| == 2 && e[0] as int == 92
              && e[1] == (if n == 8 then 'b' else if n == 9 then 't' else if n == 10 then 'n'
                          else if n == 12 then 'f' else if n == 13 then 'r' else c)
            else if n < 32 || n in {38, 60, 62, 0x2028, 0x2029} then
              && |e| == 6 && e[0] as int == 92 && e[1] == 'u'
              && n == HexValue(e[2]) * 4096 + HexValue(e[3]) * 256 + HexValue(e[4]) * 16 + HexValue(e[5])
            else e == [c]
  {
    var n := c as int;
    if LongEscaped(c) && !ShortEscaped(c) {
      Hex4Value(n);
      assert Escape(c)[2..] == Hex4(n);
    }
  }

  lemma HexDigitValue(n: int)
    requires 0 <= n < 16
    ensures HexValue(HexDigit(n)) == n
  {
  }

  lemma Hex4Value(n: int)
    requires 0 <= n < 0x1_0000
    ensures var s := Hex4(n);
            n == HexValue(s[0]) * 4096 + HexValue(s[1]) * 256 + HexValue(s[2]) * 16 + HexValue(s[3])
  {
    HexDigitValue(n / 16 / 16 / 16);
    HexDigitValue(n / 16 / 16 % 16);
    HexDigitValue(n / 16 % 16);
    HexDigitValue(n % 16);
  }

  lemma {:induction false} RenderConcat(a: seq<Token>, b: seq<Token>)
    ensures Render(a + b) == Render(a) + Render(b)
  {
    if a == [] {
      assert a + b == b;
    } else {
      assert (a + b)[1..] == a[1..] + b;
      RenderConcat(a[1..], b);
    }
  }

  /** A string without characters to escape is written as it is, between quotes. */
  lemma {:induction false} PlainQuoted(s: string)
    requires forall i :: 0 <= i < |s| ==> !ShortEscaped(s[i]) && !LongEscaped(s[i])
    ensures QuoteTail(s) == s + ['\"']
  {
    if s != [] {
      PlainQuoted(s[1..]);
      assert s == [s[0]] + s[1..];
    }
  }
}
