/** The few Go standard-library functions the core relies on, stated for the
    cases the core needs: `%d` formatting, `strings.Contains`,
    `strings.TrimSpace`, `strings.Split` on one separator, `strconv.Atoi`,
    `fmt.Sscanf("%d")`, `url.QueryEscape` and `range` over a map. A character stands for one
    byte of the Go string except in QueryEscape, which encodes UTF-8. */
module GoStd {

  import opened Types

  // ---------------------------------------------------------------------
  // Decimal digits, `%d` and strconv.Atoi

  predicate IsDigit(c: char) { '0' <= c <= '9' }

  predicate AllDigits(s: string) { forall i :: 0 <= i < |s| ==> IsDigit(s[i]) }

  function DigitChar(d: nat): char
    requires d < 10
  {
    ['0', '1', '2', '3', '4', '5', '6', '7', '8', '9'][d]
  }

  function DigitValue(c: char): nat
    requires IsDigit(c)
  {
    (c as int - '0' as int) as nat
  }

  /** The decimal digits of a natural number, most significant first. */
  function Digits(n: nat): (s: string)
    ensures |s| > 0 && AllDigits(s)
  {
    if n < 10 then [DigitChar(n)] else Digits(n / 10) + [DigitChar(n % 10)]
  }

  /** `fmt.Sprintf("%d", n)`. */
  function DecimalString(n: int): string
  {
    if n < 0 then "-" + Digits(-n) else Digits(n)
  }

  /** `fmt.Sprintf("%s:%d", host, port)`. */
  function Address(host: string, port: int): string
  {
    host + ":" + DecimalString(port)
  }

  /** The value of a run of decimal digits. */
  function DigitsValue(s: string): nat
    requires AllDigits(s)
  {
    if s == [] then 0 else DigitsValue(s[..|s| - 1]) * 10 + DigitValue(s[|s| - 1])
  }

  lemma DigitCharValue(d: nat)
    requires d < 10
    ensures IsDigit(DigitChar(d)) && DigitValue(DigitChar(d)) == d
  {
  }

  /** Reading back the digits of `n` gives `n`. */
  lemma {:induction false} DigitsRoundTrip(n: nat)
    ensures DigitsValue(Digits(n)) == n
  {
    DigitCharValue(n % 10);
    if n >= 10 {
      var s := Digits(n);
      assert s[..|s| - 1] == Digits(n / 10);
      DigitsRoundTrip(n / 10);
    }
  }

  const MinInt64: int := -0x8000_0000_0000_0000
  const MaxInt64: int := 0x7FFF_FFFF_FFFF_FFFF

  predicate InInt64(n: int) { MinInt64 <= n <= MaxInt64 }

  predicate InInt32(n: int) { -0x8000_0000 <= n < 0x8000_0000 }

  /** The conversion `int32(n)`: two's-complement wrap-around. */
  function Int32(n: int): (r: int)
    ensures InInt32(r)
    ensures (r - n) % 0x1_0000_0000 == 0
    ensures InInt32(n) ==> r == n
  {
    (n + 0x8000_0000) % 0x1_0000_0000 - 0x8000_0000
  }

  /** `strconv.Atoi` on a 64-bit platform: an optional sign followed by at
      least one decimal digit and nothing else, within the int64 range. */
  function Atoi(s: string): (r: Option<int>)
    ensures r.Some? ==> InInt64(r.value)
  {
    if s == [] then None
    else
      var neg := s[0] == '-';
      var body := if s[0] == '+' || s[0] == '-' then s[1..] else s;
      if body == [] || !AllDigits(body) then None
      else
        var v := if neg then -(DigitsValue(body) as int) else DigitsValue(body) as int;
        if InInt64(v) then Some(v) else None
  }

  /** Atoi reads back what `%d` writes. */
  lemma AtoiDecimalString(n: int)
    requires InInt64(n)
    ensures Atoi(DecimalString(n)) == Some(n)
  {
    var m: nat := if n < 0 then -n else n;
    var d := Digits(m);
    DigitsRoundTrip(m);
    assert IsDigit(d[0]);
    if n < 0 {
      var s := "-" + d;
      assert DecimalString(n) == s;
      assert s[1..] == d;
    } else {
      assert DecimalString(n) == d;
      assert d[0] != '+' && d[0] != '-';
    }
  }

  // ---------------------------------------------------------------------
  // White space, strings.TrimSpace and the `%d` verb of fmt.Sscanf

  /** unicode.IsSpace, which is also the space table of package fmt. */
  predicate IsSpace(c: char)
  {
    || ('\t' <= c <= '\r') || c == ' ' || c == '\U{0085}' || c == '\U{00A0}'
    || c == '\U{1680}' || ('\U{2000}' <= c <= '\U{200A}') || c == '\U{2028}'
    || c == '\U{2029}' || c == '\U{202F}' || c == '\U{205F}' || c == '\U{3000}'
  }

  function TrimLeft(s: string): (r: string)
    ensures |r| <= |s| && r == s[|s| - |r|..]
    ensures r != [] ==> !IsSpace(r[0])
  {
    if s != [] && IsSpace(s[0]) then TrimLeft(s[1..]) else s
  }

  function TrimRight(s: string): (r: string)
    ensures |r| <= |s| && r == s[..|r|]
    ensures r != [] ==> !IsSpace(r[|r| - 1])
  {
    if s != [] && IsSpace(s[|s| - 1]) then TrimRight(s[..|s| - 1]) else s
  }

  /** strings.TrimSpace. */
  function TrimSpace(s: string): (r: string)
    ensures r != [] ==> !IsSpace(r[0]) && !IsSpace(r[|r| - 1])
  {
    TrimRight(TrimLeft(s))
  }

  /** The longest prefix of `s` made of decimal digits. */
  function DigitPrefix(s: string): (r: string)
    ensures AllDigits(r) && |r| <= |s| && r == s[..|r|]
    ensures |r| < |s| ==> !IsDigit(s[|r|])
  {
    if s != [] && IsDigit(s[0]) then [s[0]] + DigitPrefix(s[1..]) else []
  }

  /** `fmt.Sscanf(s, "%d", &n)`: leading white space other than a newline is
      skipped, a newline there is an error, then an optional sign and at
      least one decimal digit are read; whatever follows is ignored. */
  function ScanInt(s: string): (r: Option<int>)
    ensures r.Some? ==> InInt64(r.value)
  {
    if s != [] && IsSpace(s[0]) && s[0] != '\n' then ScanInt(s[1..])
    else if s == [] || s[0] == '\n' then None
    else
      var neg := s[0] == '-';
      var rest := if s[0] == '+' || s[0] == '-' then s[1..] else s;
      var digits := DigitPrefix(rest);
      if digits == [] then None
      else
        var v := if neg then -(DigitsValue(digits) as int) else DigitsValue(digits) as int;
        if InInt64(v) then Some(v) else None
  }

  lemma {:induction false} DigitPrefixOfDigits(s: string)
    requires AllDigits(s)
    ensures DigitPrefix(s) == s
  {
    if s != [] {
      DigitPrefixOfDigits(s[1..]);
      assert [s[0]] + s[1..] == s;
    }
  }

  /** Sscanf's `%d` reads back what `%d` writes. */
  lemma ScanIntDecimalString(n: int)
    requires InInt64(n)
    ensures ScanInt(DecimalString(n)) == Some(n)
  {
    var m: nat := if n < 0 then -n else n;
    var d := Digits(m);
    DigitsRoundTrip(m);
    DigitPrefixOfDigits(d);
    assert IsDigit(d[0]) && !IsSpace(d[0]);
    if n < 0 {
      var s := "-" + d;
      assert DecimalString(n) == s;
      assert s[1..] == d;
    } else {
      assert DecimalString(n) == d;
    }
  }

  // ---------------------------------------------------------------------
  // strings.Split on one separator character

  function CountChar(s: string, c: char): nat
  {
    if s == [] then 0 else (if s[0] == c then 1 else 0) + CountChar(s[1..], c)
  }

  /** strings.Split(s, [sep]): the pieces between separators, in order. */
  function Split(s: string, sep: char): (parts: seq<string>)
    ensures |parts| == CountChar(s, sep) + 1
    ensures forall i :: 0 <= i < |parts| ==> sep !in parts[i]
  {
    if s == [] then [""]
    else
      var tail := Split(s[1..], sep);
      if s[0] == sep then [""] + tail else [[s[0]] + tail[0]] + tail[1..]
  }

  /** Splitting on a character that occurs once gives the text before it
      and the text after it. */
  lemma {:induction false} SplitOnce(a: string, b: string, sep: char)
    requires sep !in a && sep !in b
    ensures Split(a + [sep] + b, sep) == [a, b]
  {
    if a == [] {
      assert ([sep] + b)[1..] == b;
      SplitNone(b, sep);
    } else {
      assert (a + [sep] + b)[1..] == a[1..] + [sep] + b;
      SplitOnce(a[1..], b, sep);
      assert [a[0]] + a[1..] == a;
    }
  }

  lemma {:induction false} SplitNone(s: string, sep: char)
    requires sep !in s
    ensures Split(s, sep) == [s]
  {
    if s != [] {
      SplitNone(s[1..], sep);
      assert [s[0]] + s[1..] == s;
    }
  }

  // ---------------------------------------------------------------------
  // strings.Contains and strings.Join

  predicate IsPrefix(p: string, s: string) { |p| <= |s| && s[..|p|] == p }

  /** strings.Contains(s, sub). */
  predicate HasSubstring(s: string, sub: string)
    decreases |s|
  {
    IsPrefix(sub, s) || (s != [] && HasSubstring(s[1..], sub))
  }

  /** A string contains every piece it is glued from. */
  lemma {:induction false} HasSubstringMiddle(a: string, sub: string, b: string)
    ensures HasSubstring(a + sub + b, sub)
  {
    if a == [] {
      assert (a + sub + b)[..|sub|] == sub;
    } else {
      assert (a + sub + b)[1..] == a[1..] + sub + b;
      HasSubstringMiddle(a[1..], sub, b);
    }
  }

  /** A substring is shorter than the string that contains it. */
  lemma {:induction false} HasSubstringLength(s: string, sub: string)
    requires HasSubstring(s, sub)
    ensures |sub| <= |s|
    decreases |s|
  {
    if !IsPrefix(sub, s) {
      HasSubstringLength(s[1..], sub);
    }
  }

  /** strings.Join(parts, sep). */
  function Join(parts: seq<string>, sep: string): string
  {
    if parts == [] then ""
    else if |parts| == 1 then parts[0]
    else parts[0] + sep + Join(parts[1..], sep)
  }

  // ---------------------------------------------------------------------
  // url.QueryEscape

  predicate Unreserved(b: nat)
  {
    ('A' as nat <= b <= 'Z' as nat) || ('a' as nat <= b <= 'z' as nat)
    || ('0' as nat <= b <= '9' as nat) || b == '-' as nat || b == '_' as nat
    || b == '.' as nat || b == '~' as nat
  }

  /** The UTF-8 bytes of one code point. */
  function Utf8(c: char): (bytes: seq<nat>)
    ensures 1 <= |bytes| <= 4 && forall i :: 0 <= i < |bytes| ==> bytes[i] < 256
    ensures (c as nat) < 128 ==> bytes == [c as nat]
  {
    var n := c as nat;
    if n < 0x80 then [n]
    else if n < 0x800 then [0xC0 + n / 0x40, 0x80 + n % 0x40]
    else if n < 0x10000 then [0xE0 + n / 0x1000, 0x80 + (n / 0x40) % 0x40, 0x80 + n % 0x40]
    else [0xF0 + (n / 0x40000) % 8, 0x80 + (n / 0x1000) % 0x40, 0x80 + (n / 0x40) % 0x40, 0x80 + n % 0x40]
  }

  function HexDigit(d: nat): char
    requires d < 16
  {
    "0123456789ABCDEF"[d]
  }

  function EscapeByte(b: nat): (r: string)
    requires b < 256
    ensures |r| == 1 || (|r| == 3 && r[0] == '%')
  {
    if Unreserved(b) then [b as char]
    else if b == ' ' as nat then "+"
    else ['%', HexDigit(b / 16), HexDigit(b % 16)]
  }

  function EscapeBytes(bs: seq<nat>): string
    requires forall i :: 0 <= i < |bs| ==> bs[i] < 256
  {
    if bs == [] then "" else EscapeByte(bs[0]) + EscapeBytes(bs[1..])
  }

  /** url.QueryEscape: unreserved bytes stay, a space becomes '+', every
      other byte of the UTF-8 encoding becomes "%XX". */
  function QueryEscape(s: string): string
  {
    if s == [] then "" else EscapeBytes(Utf8(s[0])) + QueryEscape(s[1..])
  }

  /** A string of unreserved ASCII characters needs no escaping. */
  lemma {:induction false} QueryEscapeUnreserved(s: string)
    requires forall i :: 0 <= i < |s| ==> (s[i] as nat) < 128 && Unreserved(s[i] as nat)
    ensures QueryEscape(s) == s
  {
    if s != [] {
      var b := s[0] as nat;
      assert Utf8(s[0]) == [b];
      assert EscapeBytes([b]) == EscapeByte(b) + EscapeBytes([]);
      assert EscapeByte(b) == [s[0]];
      QueryEscapeUnreserved(s[1..]);
      assert [s[0]] + s[1..] == s;
    }
  }

  /** The default virtual host "/" travels as "%2F". */
  lemma QueryEscapeSlash()
    ensures QueryEscape("/") == "%2F"
  {
    assert Utf8('/') == [47];
    assert EscapeBytes([47]) == EscapeByte(47) + EscapeBytes([]);
  }

  // ---------------------------------------------------------------------
  // range over a map

  /** `for k := range m`: every key once, in an order the language leaves
      unspecified. */
  method RangeKeys<K, V>(m: map<K, V>) returns (order: seq<K>)
    ensures |order| == |m| && (forall k :: k in order <==> k in m)
    ensures forall i, j :: 0 <= i < j < |order| ==> order[i] != order[j]
  {
    order := [];
    var remaining := m.Keys;
    while remaining != {}
      invariant remaining <= m.Keys
      invariant forall k :: k in order <==> k in m && k !in remaining
      invariant forall i, j :: 0 <= i < j < |order| ==> order[i] != order[j]
      invariant |order| + |remaining| == |m|
      decreases |remaining|
    {
      var k :| k in remaining;
      order := order + [k];
      remaining := remaining - {k};
    }
  }
}
