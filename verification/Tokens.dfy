/**
  Token keys `onr:v1?...`: the printer of `onr-admin/internal/cli/token.go` and the gateway's parser in
  `onr/internal/auth/token.go`, with the query and base64url decoding the parser relies on. Text is a string of
  bytes here, one character below 256 for each byte.
 */
module Tokens {
  import opened Text
  import opened Options

  predicate IsBytes(s: string) { forall i :: 0 <= i < |s| ==> (s[i] as int) < 256 }

  // ---------------------------------------------------------------- percent encoding

  /** The unreserved characters of section 2.3 of RFC 3986. */
  predicate Unreserved(c: char) {
    'a' <= c <= 'z' || 'A' <= c <= 'Z' || '0' <= c <= '9' || c == '-' || c == '_' || c == '.' || c == '~'
  }

  function HexDigit(n: nat): char
    requires n < 16
  {
    if n < 10 then (48 + n) as char else (55 + n) as char
  }

  function HexValue(c: char): Option<nat> {
    if '0' <= c <= '9' then Some(c as int - 48)
    else if 'A' <= c <= 'F' then Some(c as int - 55)
    else if 'a' <= c <= 'f' then Some(c as int - 87)
    else None
  }

  function EscapeByte(c: char): string
    requires (c as int) < 256
  {
    if Unreserved(c) then [c] else ['%', HexDigit(c as int / 16), HexDigit(c as int % 16)]
  }

  function Escape(s: string): string
    requires IsBytes(s)
  {
    if s == "" then "" else EscapeByte(s[0]) + Escape(s[1..])
  }

  lemma {:induction false} EscapeEnds(s: string)
    requires IsBytes(s)
    ensures s[0..] == s && Escape(s[|s|..]) == ""
  {
  }

  lemma {:induction false} EscapeStep(s: string, i: nat)
    requires IsBytes(s) && i < |s|
    ensures Escape(s[i..]) == EscapeByte(s[i]) + Escape(s[i + 1..])
  {
    hide EscapeByte;
    assert s[i..][1..] == s[i + 1..];
  }

  method UrlEscape(s: string) returns (out: string)
    requires IsBytes(s)
    ensures out == Escape(s)
  {
    hide Unreserved, HexDigit, Escape;
    EscapeEnds(s);
    out := "";
    var i := 0;
    while i < |s|
      invariant 0 <= i <= |s| && out + Escape(s[i..]) == Escape(s)
    {
      var c := s[i];
      EscapeStep(s, i);
      if Unreserved(c) {
        out := out + [c];
      } else {
        out := out + ['%', HexDigit(c as int / 16), HexDigit(c as int % 16)];
      }
      i := i + 1;
    }
  }

  /** Query decoding: `%XX` in either letter case, `+` for a space, anything else for itself. */
  function Unescape(t: string): Option<string>
    decreases |t|
  {
    if t == "" then Some("")
    else if t[0] == '%' then
      if |t| < 3 || HexValue(t[1]) == None || HexValue(t[2]) == None then None
      else Prepend((HexValue(t[1]).value * 16 + HexValue(t[2]).value) as char, Unescape(t[3..]))
    else Prepend(if t[0] == '+' then ' ' else t[0], Unescape(t[1..]))
  }

  function Prepend(c: char, rest: Option<string>): Option<string> {
    if rest == None then None else Some([c] + rest.value)
  }

  lemma {:induction false} HexRoundTrip(n: nat)
    requires n < 16
    ensures HexValue(HexDigit(n)) == Some(n)
  {
  }

  lemma {:induction false} UnescapeByte(c: char, rest: string)
    requires (c as int) < 256
    ensures Unescape(EscapeByte(c) + rest) == Prepend(c, Unescape(rest))
  {
    hide HexValue, HexDigit;
    var t := EscapeByte(c) + rest;
    if Unreserved(c) {
      assert t[0] == c && t[1..] == rest;
    } else {
      HexRoundTrip(c as int / 16);
      HexRoundTrip(c as int % 16);
      assert t[0] == '%' && t[3..] == rest;
    }
  }

  lemma {:induction false} UnescapeUndoesEscape(s: string)
    requires IsBytes(s)
    ensures Unescape(Escape(s)) == Some(s)
  {
    hide EscapeByte;
    if s != "" {
      UnescapeUndoesEscape(s[1..]);
      hide Unescape;
      UnescapeByte(s[0], Escape(s[1..]));
      assert s == [s[0]] + s[1..];
    }
  }

  /** Unreserved characters and upper-case percent triplets, section 2.1 of RFC 3986. */
  predicate EscapedForm(t: string)
    decreases |t|
  {
    t == "" || (Unreserved(t[0]) && EscapedForm(t[1..]))
    || (|t| >= 3 && t[0] == '%' && UpperHex(t[1]) && UpperHex(t[2]) && EscapedForm(t[3..]))
  }

  predicate UpperHex(c: char) { '0' <= c <= '9' || 'A' <= c <= 'F' }

  lemma {:induction false} EscapeHasEscapedForm(s: string)
    requires IsBytes(s)
    ensures EscapedForm(Escape(s))
    ensures forall i :: 0 <= i < |Escape(s)| ==> Unreserved(Escape(s)[i]) || Escape(s)[i] == '%'
  {
    if s != "" {
      EscapeHasEscapedForm(s[1..]);
      var t := Escape(s);
      if Unreserved(s[0]) {
        assert t[1..] == Escape(s[1..]);
      } else {
        assert t[3..] == Escape(s[1..]);
      }
    }
  }

  // ---------------------------------------------------------------- base64url without padding

  function Digit64(n: nat): char
    requires n < 64
  {
    if n < 26 then (65 + n) as char else if n < 52 then (71 + n) as char
    else if n < 62 then (n - 4) as char else if n == 62 then '-' else '_'
  }

  function Value64(c: char): (v: Option<nat>)
    ensures v.Some? ==> v.value < 64 && Digit64(v.value) == c
  {
    if 'A' <= c <= 'Z' then Some(c as int - 65)
    else if 'a' <= c <= 'z' then Some(c as int - 71)
    else if '0' <= c <= '9' then Some(c as int + 4)
    else if c == '-' then Some(62) else if c == '_' then Some(63) else None
  }

  lemma {:induction false} DigitRoundTrip(n: nat)
    requires n < 64
    ensures Value64(Digit64(n)) == Some(n) && Unreserved(Digit64(n))
  {
  }

  /** The four six-bit groups of three bytes. */
  function Six0(a: char): nat { a as int / 4 % 64 }
  function Six1(a: char, b: char): nat { a as int % 4 * 16 + b as int / 16 % 16 }
  function Six2(b: char, c: char): nat { b as int % 16 * 4 + c as int / 64 % 4 }
  function Six3(c: char): nat { c as int % 64 }

  function Encode64(s: string): string
    decreases |s|
  {
    if s == "" then ""
    else if |s| == 1 then [Digit64(Six0(s[0])), Digit64(Six1(s[0], '\0'))]
    else if |s| == 2 then [Digit64(Six0(s[0])), Digit64(Six1(s[0], s[1])), Digit64(Six2(s[1], '\0'))]
    else
      [Digit64(Six0(s[0])), Digit64(Six1(s[0], s[1])), Digit64(Six2(s[1], s[2])), Digit64(Six3(s[2]))]
      + Encode64(s[3..])
  }

  /** The three bytes of four six-bit groups. */
  function Byte0(p: nat, q: nat): char
    requires p < 64 && q < 64
  { (p * 4 + q / 16) as char }

  function Byte1(q: nat, r: nat): char
    requires q < 64 && r < 64
  { (q % 16 * 16 + r / 4) as char }

  function Byte2(r: nat, u: nat): char
    requires r < 64 && u < 64
  { (r % 4 * 64 + u) as char }

  /** Strict decoding: unused low bits of the last digit must be zero. */
  function Quanta(t: string): Option<string>
    decreases |t|
  {
    if t == "" then Some("")
    else if |t| == 1 || Value64(t[0]) == None || Value64(t[1]) == None then None
    else
      var p, q := Value64(t[0]).value, Value64(t[1]).value;
      if |t| == 2 then (if q % 16 == 0 then Some([Byte0(p, q)]) else None)
      else if Value64(t[2]) == None then None
      else
        var r := Value64(t[2]).value;
        if |t| == 3 then (if r % 4 == 0 then Some([Byte0(p, q), Byte1(q, r)]) else None)
        else if Value64(t[3]) == None || Quanta(t[4..]) == None then None
        else Some([Byte0(p, q), Byte1(q, r), Byte2(r, Value64(t[3]).value)] + Quanta(t[4..]).value)
  }

  /** Line breaks are skipped wherever they stand. */
  function WithoutBreaks(t: string): string {
    if t == "" then "" else (if t[0] == '\n' || t[0] == '\r' then "" else [t[0]]) + WithoutBreaks(t[1..])
  }

  function Decode64(t: string): Option<string> { Quanta(WithoutBreaks(t)) }

  lemma {:induction false} EncodedDigits(s: string)
    ensures forall i :: 0 <= i < |Encode64(s)| ==> Unreserved(Encode64(s)[i])
    ensures s != "" ==> Encode64(s) != ""
  {
    if |s| >= 3 { EncodedDigits(s[3..]); }
  }

  lemma {:induction false} RegroupBytes(a: char, b: char, c: char)
    requires a as int < 256 && b as int < 256 && c as int < 256
    ensures Byte0(Six0(a), Six1(a, b)) == a && Byte1(Six1(a, b), Six2(b, c)) == b && Byte2(Six2(b, c), Six3(c)) == c
    ensures b as int == 0 ==> Six1(a, b) % 16 == 0
    ensures c as int == 0 ==> Six2(b, c) % 4 == 0
  {
    Regroup0(a as int, b as int);
    Regroup1(b as int, c as int);
    Regroup2(c as int);
    Regroup1Tail(a as int, b as int);
    Regroup2Tail(b as int, c as int);
  }

  lemma {:induction false} Regroup0(a: nat, b: nat)
    requires a < 256 && b < 256
    ensures a / 4 % 64 * 4 + (a % 4 * 16 + b / 16 % 16) / 16 == a
  {
  }

  lemma {:induction false} Regroup1(b: nat, c: nat)
    requires b < 256 && c < 256
    ensures b / 16 % 16 * 16 + (b % 16 * 4 + c / 64 % 4) / 4 == b
  {
  }

  lemma {:induction false} Regroup1Tail(a: nat, b: nat)
    requires a < 256 && b < 256
    ensures (a % 4 * 16 + b / 16 % 16) % 16 == b / 16 % 16
  {
  }

  lemma {:induction false} Regroup2(c: nat)
    requires c < 256
    ensures c / 64 % 4 * 64 + c % 64 == c
  {
  }

  lemma {:induction false} Regroup2Tail(b: nat, c: nat)
    requires b < 256 && c < 256
    ensures (b % 16 * 4 + c / 64 % 4) % 4 == c / 64 % 4
  {
  }

  lemma {:induction false} RegroupDigits(p: nat, q: nat, r: nat, u: nat)
    requires p < 64 && q < 64 && r < 64 && u < 64
    ensures Byte0(p, q) as int < 256 && Byte1(q, r) as int < 256 && Byte2(r, u) as int < 256
    ensures Six0(Byte0(p, q)) == p && Six1(Byte0(p, q), Byte1(q, r)) == q
    ensures Six2(Byte1(q, r), Byte2(r, u)) == r && Six3(Byte2(r, u)) == u
    ensures q % 16 == 0 ==> Six1(Byte0(p, q), '\0') == q
    ensures r % 4 == 0 ==> Six2(Byte1(q, r), '\0') == r
  {
    Halves(p, q / 16, 4);
    Halves(q % 16, r / 4, 16);
    Halves(r % 4, u, 64);
  }

  /** Two digits in base `n` and back. */
  lemma {:induction false} Halves(hi: nat, lo: nat, n: nat)
    requires lo < n && (n == 4 || n == 16 || n == 64)
    ensures (hi * n + lo) / n == hi && (hi * n + lo) % n == lo
  {
  }

  /** Four digits at the front decode to three bytes. */
  lemma {:induction false} QuantaStep(t: string, p: nat, q: nat, r: nat, u: nat)
    requires |t| >= 4 && p < 64 && q < 64 && r < 64 && u < 64
    requires Value64(t[0]) == Some(p) && Value64(t[1]) == Some(q) && Value64(t[2]) == Some(r) && Value64(t[3])
            == Some(u)
    ensures Quanta(t) == if Quanta(t[4..]) == None then None
                         else Some([Byte0(p, q), Byte1(q, r), Byte2(r, u)] + Quanta(t[4..]).value)
  {
    hide Value64, Digit64, Byte0, Byte1, Byte2;
  }

  /** One or two bytes at the end. */
  lemma {:induction false} LastQuantum(s: string)
    requires IsBytes(s) && 0 < |s| < 3
    ensures Quanta(Encode64(s)) == Some(s)
  {
    hide Digit64, Value64, Byte0, Byte1, Byte2;
    var a, b := s[0], if |s| > 1 then s[1] else '\0';
    RegroupBytes(a, b, '\0');
    SixesAreSmall(a, b, '\0');
    DigitRoundTrip(Six0(a));
    DigitRoundTrip(Six1(a, b));
    DigitRoundTrip(Six2(b, '\0'));
    hide Six0, Six1, Six2, Six3;
    assert s == if |s| == 1 then [a] else [a, b];
  }

  lemma {:induction false} SixesAreSmall(a: char, b: char, c: char)
    ensures Six0(a) < 64 && Six1(a, b) < 64 && Six2(b, c) < 64 && Six3(c) < 64
  {
  }

  lemma {:induction false} QuantaUndoEncode(s: string)
    requires IsBytes(s)
    ensures Quanta(Encode64(s)) == Some(s)
  {
    hide Digit64, Value64, Byte0, Byte1, Byte2, Six0, Six1, Six2, Six3;
    if 0 < |s| < 3 {
      LastQuantum(s);
    } else if |s| >= 3 {
      var a, b, c := s[0], s[1], s[2];
      RegroupBytes(a, b, c);
      SixesAreSmall(a, b, c);
      DigitRoundTrip(Six0(a));
      DigitRoundTrip(Six1(a, b));
      DigitRoundTrip(Six2(b, c));
      DigitRoundTrip(Six3(c));
      QuantaUndoEncode(s[3..]);
      assert Encode64(s)[4..] == Encode64(s[3..]);
      hide Quanta;
      QuantaStep(Encode64(s), Six0(a), Six1(a, b), Six2(b, c), Six3(c));
      assert s == [a, b, c] + s[3..];
    }
  }

  lemma {:induction false} ValueIsDigit(c: char)
    requires Value64(c).Some?
    ensures Value64(c).value < 64 && Digit64(Value64(c).value) == c
  {
  }

  lemma {:induction false} EncodeUndoesQuanta(t: string)
    requires Quanta(t).Some?
    ensures IsBytes(Quanta(t).value) && Encode64(Quanta(t).value) == t
    decreases |t|
  {
    hide Digit64, Value64, Byte0, Byte1, Byte2, Six0, Six1, Six2, Six3;
    if t != "" {
      ValueIsDigit(t[0]);
      ValueIsDigit(t[1]);
      if |t| > 2 { ValueIsDigit(t[2]); }
      if |t| > 3 { ValueIsDigit(t[3]); }
      var p, q := Value64(t[0]).value, Value64(t[1]).value;
      var r, u := if |t| > 2 then Value64(t[2]).value else 0, if |t| > 3 then Value64(t[3]).value else 0;
      RegroupDigits(p, q, r, u);
      if |t| >= 4 {
        EncodeUndoesQuanta(t[4..]);
        var s := Quanta(t).value;
        assert s[3..] == Quanta(t[4..]).value;
        assert t == [t[0], t[1], t[2], t[3]] + t[4..];
      }
    }
  }

  /** Strict decoding accepts exactly one text for each byte string: its encoding. */
  lemma {:induction false} Decode64Iff(t: string, s: string)
    requires IsBytes(s)
    ensures Decode64(t) == Some(s) <==> WithoutBreaks(t) == Encode64(s)
  {
    QuantaUndoEncode(s);
    if Decode64(t) == Some(s) { EncodeUndoesQuanta(WithoutBreaks(t)); }
  }

  lemma {:induction false} NoBreaks(t: string)
    requires forall i :: 0 <= i < |t| ==> t[i] != '\n' && t[i] != '\r'
    ensures WithoutBreaks(t) == t
  {
    if t != "" { NoBreaks(t[1..]); }
  }

  lemma {:induction false} Decode64UndoesEncode64(s: string)
    requires IsBytes(s)
    ensures Decode64(Encode64(s)) == Some(s)
  {
    EncodedDigits(s);
    NoBreaks(Encode64(s));
    QuantaUndoEncode(s);
  }

  // ---------------------------------------------------------------- white space in UTF-8

  predicate Space1(a: char) { a == ' ' || 9 <= a as int <= 13 }

  predicate Space2(a: char, b: char) { a as int == 0xC2 && (b as int == 0x85 || b as int == 0xA0) }

  predicate Space3(a: char, b: char, c: char) {
    var (x, y, z) := (a as int, b as int, c as int);
    || (x == 0xE1 && y == 0x9A && z == 0x80)
    || (x == 0xE2 && y == 0x80 && (0x80 <= z <= 0x8A || z == 0xA8 || z == 0xA9 || z == 0xAF))
    || (x == 0xE2 && y == 0x81 && z == 0x9F)
    || (x == 0xE3 && y == 0x80 && z == 0x80)
  }

  /** The length of the white-space character that the bytes start with, 0 if none. */
  function HeadSpace(s: string): (n: nat)
    ensures n <= |s|
  {
    if |s| >= 1 && Space1(s[0]) then 1
    else if |s| >= 2 && Space2(s[0], s[1]) then 2
    else if |s| >= 3 && Space3(s[0], s[1], s[2]) then 3 else 0
  }

  /** The length of the white-space character that the bytes end with, 0 if none. */
  function TailSpace(s: string): (n: nat)
    ensures n <= |s|
  {
    var k := |s|;
    if k >= 1 && Space1(s[k - 1]) then 1
    else if k >= 2 && Space2(s[k - 2], s[k - 1]) then 2
    else if k >= 3 && Space3(s[k - 3], s[k - 2], s[k - 1]) then 3 else 0
  }

  function TrimHead(s: string): string
    decreases |s|
  {
    if HeadSpace(s) == 0 then s else TrimHead(s[HeadSpace(s)..])
  }

  function TrimTail(s: string): string
    decreases |s|
  {
    if TailSpace(s) == 0 then s else TrimTail(s[..|s| - TailSpace(s)])
  }

  /** `strings.TrimSpace` on bytes. */
  function TrimBytes(s: string): string { TrimTail(TrimHead(s)) }

  predicate Trimmed(s: string) { HeadSpace(s) == 0 && TailSpace(s) == 0 }

  lemma {:induction false} TrimHeadMeaning(s: string)
    ensures HeadSpace(TrimHead(s)) == 0 && (IsBytes(s) ==> IsBytes(TrimHead(s)))
    decreases |s|
  {
    if HeadSpace(s) != 0 { TrimHeadMeaning(s[HeadSpace(s)..]); }
  }

  lemma {:induction false} TrimTailMeaning(s: string)
    requires HeadSpace(s) == 0
    ensures Trimmed(TrimTail(s)) && (IsBytes(s) ==> IsBytes(TrimTail(s)))
    decreases |s|
  {
    if TailSpace(s) != 0 { TrimTailMeaning(s[..|s| - TailSpace(s)]); }
  }

  lemma {:induction false} TrimBytesMeaning(s: string)
    ensures Trimmed(TrimBytes(s)) && (IsBytes(s) ==> IsBytes(TrimBytes(s)))
    ensures Trimmed(s) ==> TrimBytes(s) == s
  {
    TrimHeadMeaning(s);
    TrimTailMeaning(TrimHead(s));
  }

  lemma {:induction false} LowerBytes(s: string)
    ensures |Lower(s)| == |s| && forall i :: 0 <= i < |s| ==> Lower(s)[i] == LowerChar(s[i])
  {
    if s != "" { LowerBytes(s[1..]); }
  }

  lemma {:induction false} LowerKeepsSpaces(s: string, t: string)
    requires |t| == |s| && forall i :: 0 <= i < |s| ==> t[i] == LowerChar(s[i])
    ensures HeadSpace(t) == HeadSpace(s)
  {
    hide Space1, Space2, Space3, LowerChar;
    var n := |s|;
    if n >= 1 { LowerKeepsSpace(s[0], if n >= 2 then s[1] else 'a', if n >= 3 then s[2] else 'a'); }
  }

  lemma {:induction false} LowerKeepsTail(s: string, t: string)
    requires |t| == |s| && forall i :: 0 <= i < |s| ==> t[i] == LowerChar(s[i])
    ensures TailSpace(t) == TailSpace(s)
  {
    hide Space1, Space2, Space3, LowerChar;
    var n := |s|;
    if n >= 1 { LowerKeepsSpace(s[n - 1], 'a', 'a'); }
    if n >= 2 { LowerKeepsSpace(s[n - 2], s[n - 1], 'a'); }
    if n >= 3 { LowerKeepsSpace(s[n - 3], s[n - 2], s[n - 1]); }
  }

  lemma {:induction false} LowerKeepsSpace(a: char, b: char, c: char)
    ensures Space1(LowerChar(a)) == Space1(a) && Space2(LowerChar(a), LowerChar(b)) == Space2(a, b)
    ensures Space3(LowerChar(a), LowerChar(b), LowerChar(c)) == Space3(a, b, c)
  {
  }

  lemma {:induction false} LowerTwice(s: string)
    ensures Lower(Lower(s)) == Lower(s)
  {
    LowerBytes(s);
    LowerBytes(Lower(s));
  }

  lemma {:induction false} LowerKeepsTrimmed(s: string)
    requires Trimmed(s)
    ensures Trimmed(Lower(s)) && Lower(Lower(s)) == Lower(s) && (IsBytes(s) ==> IsBytes(Lower(s)))
  {
    hide HeadSpace, TailSpace;
    LowerBytes(s);
    LowerTwice(s);
    LowerKeepsSpaces(s, Lower(s));
    LowerKeepsTail(s, Lower(s));
  }

  // ---------------------------------------------------------------- printing

  type Field = (string, string)

  function Pair(f: Field): string
    requires IsBytes(f.1)
  {
    f.0 + "=" + Escape(f.1)
  }

  ghost predicate AllBytes(fs: seq<Field>) { forall f :: f in fs ==> IsBytes(f.1) }

  ghost function Pairs(fs: seq<Field>): seq<string>
    requires AllBytes(fs)
  {
    if fs == [] then [] else [Pair(fs[0])] + Pairs(fs[1..])
  }

  ghost function Query(fs: seq<Field>): string
    requires AllBytes(fs)
  {
    Join(Pairs(fs), "&")
  }

  function Optional(name: string, value: string): seq<Field> { if value == "" then [] else [(name, value)] }

  function Fields(accessKey: string, provider: string, model: string, upstream: string, plain: bool): seq<Field>
  {
    [if plain then ("k", accessKey) else ("k64", Encode64(accessKey))]
    + (Optional("p", provider) + (Optional("m", model) + Optional("uk", upstream)))
  }

  lemma {:induction false} FieldsAreBytes(accessKey: string, provider: string, model: string, upstream: string,
                                          plain: bool)
    requires IsBytes(accessKey) && IsBytes(provider) && IsBytes(model) && IsBytes(upstream)
    ensures AllBytes(Fields(accessKey, provider, model, upstream, plain))
  {
    EncodedDigits(accessKey);
  }

  ghost function Token(accessKey: string, provider: string, model: string, upstream: string, plain: bool): string
    requires IsBytes(accessKey) && IsBytes(provider) && IsBytes(model) && IsBytes(upstream)
  {
    FieldsAreBytes(accessKey, provider, model, upstream, plain);
    Query(Fields(accessKey, provider, model, upstream, plain))
  }

  lemma {:induction false} PairsAppend(fs: seq<Field>, f: Field)
    requires AllBytes(fs) && IsBytes(f.1)
    ensures AllBytes(fs + [f]) && Pairs(fs + [f]) == Pairs(fs) + [Pair(f)]
  {
    if fs != [] {
      PairsAppend(fs[1..], f);
      assert (fs + [f])[1..] == fs[1..] + [f];
    }
  }

  lemma {:induction false} AppendOptional(fs: seq<Field>, name: string, value: string, printed: string)
    requires AllBytes(fs) && IsBytes(value) && printed == name + "="
    ensures AllBytes(fs + Optional(name, value))
    ensures Pairs(fs + Optional(name, value))
         == if value == "" then Pairs(fs) else Pairs(fs) + [printed + Escape(value)]
  {
    hide Escape, IsBytes;
    if value == "" {
      assert fs + Optional(name, value) == fs;
    } else {
      PairsAppend(fs, (name, value));
    }
  }

  lemma {:induction false} FirstPair(f: Field, printed: string)
    requires IsBytes(f.1) && printed == f.0 + "="
    ensures Pairs([f]) == [printed + Escape(f.1)]
  {
    hide Escape;
    assert [f][1..] == [];
  }

  method TokenQueryValues(accessKey: string, provider: string, model: string, upstream: string, plain: bool)
    returns (out: string)
    requires IsBytes(accessKey) && IsBytes(provider) && IsBytes(model) && IsBytes(upstream)
    ensures out == Token(accessKey, provider, model, upstream, plain)
  {
    hide Encode64, Escape, Pairs, Optional, IsBytes, Join;
    FieldsAreBytes(accessKey, provider, model, upstream, plain);
    ghost var first := if plain then ("k", accessKey) else ("k64", Encode64(accessKey));
    EncodedBytes(accessKey);
    assert "k=" == "k" + "=" && "k64=" == "k64" + "=" && "p=" == "p" + "=" && "m=" == "m" + "=" && "uk=" == "uk" + "=";
    FirstPair(first, if plain then "k=" else "k64=");
    AppendOptional([first], "p", provider, "p=");
    AppendOptional([first] + Optional("p", provider), "m", model, "m=");
    AppendOptional([first] + Optional("p", provider) + Optional("m", model), "uk", upstream, "uk=");
    var pairs: seq<string> := [];
    var value: string;
    if plain {
      value := UrlEscape(accessKey);
      pairs := pairs + ["k=" + value];
    } else {
      value := UrlEscape(Encode64(accessKey));
      pairs := pairs + ["k64=" + value];
    }
    if provider != "" {
      value := UrlEscape(provider);
      pairs := pairs + ["p=" + value];
    }
    if model != "" {
      value := UrlEscape(model);
      pairs := pairs + ["m=" + value];
    }
    if upstream != "" {
      value := UrlEscape(upstream);
      pairs := pairs + ["uk=" + value];
    }
    assert [first] + Optional("p", provider) + Optional("m", model) + Optional("uk", upstream)
        == Fields(accessKey, provider, model, upstream, plain);
    assert pairs == Pairs(Fields(accessKey, provider, model, upstream, plain));
    out := Join(pairs, "&");
  }

  lemma {:induction false} EncodedBytes(s: string)
    ensures IsBytes(Encode64(s))
  {
    EncodedDigits(s);
  }

  // ---------------------------------------------------------------- parsing

  function IndexOf(s: string, c: char): (n: nat)
    ensures n <= |s|
  {
    if s == "" || s[0] == c then 0 else 1 + IndexOf(s[1..], c)
  }

  /** What follows the separator at `n`, empty if the separator is missing. */
  function After(s: string, n: nat): (r: string)
    ensures |r| < |s| || s == ""
  {
    if n < |s| then s[n + 1..] else ""
  }

  /** Query parsing; any malformed part makes the whole query invalid. */
  function ParseQuery(q: string): Option<seq<Field>>
    decreases |q|
  {
    if q == "" then Some([]) else
      var part := q[..IndexOf(q, '&')];
      var rest := ParseQuery(After(q, IndexOf(q, '&')));
      if ';' in part then None
      else if part == "" then rest
      else
        var name := Unescape(part[..IndexOf(part, '=')]);
        var value := Unescape(After(part, IndexOf(part, '=')));
        if name == None || value == None || rest == None then None else Some([(name.value, value.value)] + rest.value)
  }

  /** The first value of a name, empty if there is none. */
  function Get(fs: seq<Field>, name: string): string {
    if fs == [] then "" else if fs[0].0 == name then fs[0].1 else Get(fs[1..], name)
  }

  datatype Claims = Claims(provider: string, model: string, upstream: string, byok: bool)

  datatype Parsed =
    | Parsed(claims: Claims, accessKey: string)
    | NotAToken
    | InvalidQuery
    | InvalidUk64
    | InvalidK64
    | MissingKey

  const PREFIX := "onr:v1?"

  function Parse(raw: string, allowWithoutKey: bool): Parsed {
    var s := TrimBytes(raw);
    if |s| < |PREFIX| || s[..|PREFIX|] != PREFIX then NotAToken else
      var q := ParseQuery(s[|PREFIX|..]);
      if q == None then InvalidQuery else ParseFields(q.value, allowWithoutKey)
  }

  function ParseFields(fs: seq<Field>, allowWithoutKey: bool): Parsed {
    var uk64, k64, k := TrimBytes(Get(fs, "uk64")), TrimBytes(Get(fs, "k64")), TrimBytes(Get(fs, "k"));
    if uk64 != "" && Decode64(uk64) == None then InvalidUk64 else
      var upstream := TrimBytes(if uk64 != "" then Decode64(uk64).value else Get(fs, "uk"));
      if k64 != "" && Decode64(k64) == None then InvalidK64
      else if k64 == "" && k == "" && (!allowWithoutKey || upstream == "") then MissingKey
      else
        Parsed(Claims(Lower(TrimBytes(Get(fs, "p"))), TrimBytes(Get(fs, "m")), upstream, upstream != ""),
               if k64 != "" then TrimBytes(Decode64(k64).value) else k)
  }

  // ---------------------------------------------------------------- parsing undoes printing

  lemma {:induction false} IndexOfAt(s: string, c: char, rest: string)
    requires c !in s
    ensures IndexOf(s + [c] + rest, c) == |s|
  {
    var t := s + [c] + rest;
    if s != "" {
      IndexOfAt(s[1..], c, rest);
      assert t[1..] == s[1..] + [c] + rest;
    }
  }

  lemma {:induction false} IndexOfMissing(s: string, c: char)
    requires c !in s
    ensures IndexOf(s, c) == |s|
  {
    if s != "" { IndexOfMissing(s[1..], c); }
  }

  lemma {:induction false} NameUnescapes(name: string)
    requires forall i :: 0 <= i < |name| ==> Unreserved(name[i])
    ensures Unescape(name) == Some(name)
  {
    if name != "" {
      NameUnescapes(name[1..]);
      assert name == [name[0]] + name[1..];
    }
  }

  predicate Name(s: string) { s != "" && forall i :: 0 <= i < |s| ==> Unreserved(s[i]) }

  /** One printed pair splits at its only `=` and decodes to the field. */
  lemma {:induction false} PairSplits(f: Field)
    requires Name(f.0) && IsBytes(f.1)
    ensures var part := Pair(f);
            && part != "" && '&' !in part && ';' !in part
            && Unescape(part[..IndexOf(part, '=')]) == Some(f.0)
            && Unescape(After(part, IndexOf(part, '='))) == Some(f.1)
  {
    hide Unescape, Escape, EscapedForm, IndexOf;
    var part := Pair(f);
    EscapeHasEscapedForm(f.1);
    UnescapeUndoesEscape(f.1);
    NameUnescapes(f.0);
    IndexOfAt(f.0, '=', Escape(f.1));
    assert part == f.0 + ['='] + Escape(f.1);
    assert part[..|f.0|] == f.0 && part[|f.0| + 1..] == Escape(f.1);
  }

  ghost predicate Printable(fs: seq<Field>) { forall f :: f in fs ==> Name(f.0) && IsBytes(f.1) }

  lemma {:induction false} QueryOneMore(fs: seq<Field>)
    requires AllBytes(fs) && fs != []
    ensures Query(fs) == if |fs| == 1 then Pair(fs[0]) else Pair(fs[0]) + ['&'] + Query(fs[1..])
  {
    hide Pair, IsBytes;
    PairsLength(fs);
    PairsLength(fs[1..]);
    assert Pairs(fs)[1..] == Pairs(fs[1..]);
  }

  /** Parsing takes one printed part off the front. */
  lemma {:induction false} ParseOnePart(part: string, f: Field, rest: string, last: bool)
    requires part != "" && '&' !in part && ';' !in part
    requires Unescape(part[..IndexOf(part, '=')]) == Some(f.0) && Unescape(After(part, IndexOf(part, '='))) == Some(f.1)
    ensures var tail := if last then Some([]) else ParseQuery(rest);
            ParseQuery(if last then part else part + ['&'] + rest)
            == if tail == None then None else Some([f] + tail.value)
  {
    hide Unescape, IndexOf;
    if last {
      IndexOfMissing(part, '&');
      assert part[..|part|] == part;
    } else {
      var q := part + ['&'] + rest;
      IndexOfAt(part, '&', rest);
      assert q[..|part|] == part && q[|part| + 1..] == rest;
    }
  }

  lemma {:induction false} ParseQueryUndoesQuery(fs: seq<Field>)
    requires Printable(fs)
    ensures ParseQuery(Query(fs)) == Some(fs)
  {
    hide Pair, Unescape, IndexOf, Name, IsBytes, After;
    if fs != [] {
      hide ParseQuery, Query;
      ParseQueryUndoesQuery(fs[1..]);
      PairSplits(fs[0]);
      QueryOneMore(fs);
      ParseOnePart(Pair(fs[0]), fs[0], Query(fs[1..]), |fs| == 1);
      assert |fs| == 1 ==> fs == [fs[0]];
      assert [fs[0]] + fs[1..] == fs;
    }
  }

  lemma {:induction false} PairsLength(fs: seq<Field>)
    requires AllBytes(fs)
    ensures |Pairs(fs)| == |fs|
  {
    hide Pair;
    if fs != [] { PairsLength(fs[1..]); }
  }

  predicate Graphic(s: string) { forall i :: 0 <= i < |s| ==> '!' <= s[i] <= '~' }

  lemma {:induction false} QueryIsGraphic(fs: seq<Field>)
    requires Printable(fs)
    ensures Graphic(Query(fs))
  {
    hide Escape, EscapedForm;
    if fs != [] {
      QueryIsGraphic(fs[1..]);
      EscapeHasEscapedForm(fs[0].1);
      assert Graphic(Pair(fs[0]));
      PairsLength(fs);
      assert Pairs(fs)[1..] == Pairs(fs[1..]);
    }
  }

  lemma {:induction false} GraphicIsTrimmed(s: string)
    requires Graphic(s)
    ensures TrimBytes(s) == s
  {
    TrimBytesMeaning(s);
  }

  lemma {:induction false} GetOptional(name: string, value: string, rest: seq<Field>, key: string)
    ensures Get(Optional(name, value) + rest, key) == if key == name && value != "" then value else Get(rest, key)
  {
    assert value == "" ==> Optional(name, value) + rest == rest;
    assert value != "" ==> (Optional(name, value) + rest)[1..] == rest;
  }

  lemma {:induction false} GetField(accessKey: string, provider: string, model: string, upstream: string, plain: bool,
                                    key: string)
    requires IsBytes(accessKey)
    ensures Get(Fields(accessKey, provider, model, upstream, plain), key)
         == if plain && key == "k" then accessKey else if !plain && key == "k64" then Encode64(accessKey)
            else if key == "p" then provider else if key == "m" then model else if key == "uk" then upstream else ""
  {
    hide Encode64;
    var fs := Fields(accessKey, provider, model, upstream, plain);
    var u := Optional("uk", upstream);
    var m := Optional("m", model) + u;
    assert u + [] == u;
    GetOptional("uk", upstream, [], key);
    GetOptional("m", model, u, key);
    GetOptional("p", provider, m, key);
    assert fs[1..] == Optional("p", provider) + m;
  }

  lemma {:induction false} FieldsPrintable(accessKey: string, provider: string, model: string, upstream: string,
                                           plain: bool)
    requires IsBytes(accessKey) && IsBytes(provider) && IsBytes(model) && IsBytes(upstream)
    ensures Printable(Fields(accessKey, provider, model, upstream, plain))
  {
    hide Encode64;
    EncodedDigits(accessKey);
    assert Name("k") && Name("k64") && Name("p") && Name("m") && Name("uk");
  }

  /** Parsing a printed token: its fields, trimmed and the provider in lower case, or a missing key. */
  lemma {:induction false} ParseOfToken(accessKey: string, provider: string, model: string, upstream: string,
                                        plain: bool, allow: bool)
    requires IsBytes(accessKey) && IsBytes(provider) && IsBytes(model) && IsBytes(upstream)
    ensures Parse(PREFIX + Token(accessKey, provider, model, upstream, plain), allow)
         == (var up := TrimBytes(upstream);
             var noKey := if plain then TrimBytes(accessKey) == "" else accessKey == "";
             if noKey && !(allow && up != "") then MissingKey
             else Parsed(Claims(Lower(TrimBytes(provider)), TrimBytes(model), up, up != ""), TrimBytes(accessKey)))
  {
    hide TrimBytes, ParseQuery, Query, Encode64, Decode64, Lower, Get, Fields;
    var fs := Fields(accessKey, provider, model, upstream, plain);
    FieldsPrintable(accessKey, provider, model, upstream, plain);
    FieldsAreBytes(accessKey, provider, model, upstream, plain);
    var raw := PREFIX + Query(fs);
    QueryIsGraphic(fs);
    GraphicIsTrimmed(raw);
    assert raw[|PREFIX|..] == Query(fs) && raw[..|PREFIX|] == PREFIX;
    ParseQueryUndoesQuery(fs);
    FieldsParse(accessKey, provider, model, upstream, plain, allow);
  }

  lemma {:induction false} FieldsParse(accessKey: string, provider: string, model: string, upstream: string,
                                       plain: bool, allow: bool)
    requires IsBytes(accessKey)
    ensures ParseFields(Fields(accessKey, provider, model, upstream, plain), allow)
         == (var up := TrimBytes(upstream);
             var noKey := if plain then TrimBytes(accessKey) == "" else accessKey == "";
             if noKey && !(allow && up != "") then MissingKey
             else Parsed(Claims(Lower(TrimBytes(provider)), TrimBytes(model), up, up != ""), TrimBytes(accessKey)))
  {
    hide TrimBytes, Encode64, Decode64, Lower, Get, Fields;
    GetField(accessKey, provider, model, upstream, plain, "k");
    GetField(accessKey, provider, model, upstream, plain, "k64");
    GetField(accessKey, provider, model, upstream, plain, "p");
    GetField(accessKey, provider, model, upstream, plain, "m");
    GetField(accessKey, provider, model, upstream, plain, "uk");
    GetField(accessKey, provider, model, upstream, plain, "uk64");
    GraphicIsTrimmed("");
    EncodedDigits(accessKey);
    GraphicIsTrimmed(Encode64(accessKey));
    Decode64UndoesEncode64(accessKey);
    EncodeEmpty();
  }

  lemma {:induction false} EncodeEmpty()
    ensures Encode64("") == ""
  {
  }

  /** What `token create` prints for a resolved access key and its flags; none if the key is blank. */
  ghost function BuildToken(accessKey: string, provider: string, model: string, upstream: string, plain: bool)
    : Option<string>
    requires IsBytes(accessKey) && IsBytes(provider) && IsBytes(model) && IsBytes(upstream)
  {
    TrimBytesMeaning(accessKey);
    TrimBytesMeaning(provider);
    TrimBytesMeaning(model);
    TrimBytesMeaning(upstream);
    LowerKeepsTrimmed(TrimBytes(provider));
    var (a, p, m, u) := (TrimBytes(accessKey), TrimBytes(provider), TrimBytes(model), TrimBytes(upstream));
    if a == "" then None else Some("onr:v1?" + Token(a, Lower(p), m, u, plain))
  }

  /** The gateway reads back from a created token exactly what was asked for, in both forms of the access key. */
  lemma {:induction false} ParseUndoesBuild(accessKey: string, provider: string, model: string, upstream: string,
                                            plain: bool, allow: bool)
    requires IsBytes(accessKey) && IsBytes(provider) && IsBytes(model) && IsBytes(upstream)
    ensures var t := BuildToken(accessKey, provider, model, upstream, plain);
            && (t == None <==> TrimBytes(accessKey) == "")
            && (t.Some? ==>
                  var up := TrimBytes(upstream);
                  Parse(t.value, allow)
                  == Parsed(Claims(Lower(TrimBytes(provider)), TrimBytes(model), up, up != ""), TrimBytes(accessKey)))
  {
    hide TrimBytes, Trimmed, Lower, Token, Parse;
    var (a, p, m, u) := (TrimBytes(accessKey), TrimBytes(provider), TrimBytes(model), TrimBytes(upstream));
    TrimBytesMeaning(accessKey);
    TrimBytesMeaning(provider);
    TrimBytesMeaning(model);
    TrimBytesMeaning(upstream);
    LowerKeepsTrimmed(p);
    TrimBytesMeaning(a);
    TrimBytesMeaning(Lower(p));
    TrimBytesMeaning(m);
    TrimBytesMeaning(u);
    ParseOfToken(a, Lower(p), m, u, plain, allow);
  }

  /** Hence the printed text determines the fields, whichever form printed it. */
  lemma {:induction false} TokensAreUnique(a1: string, p1: string, m1: string, u1: string, plain1: bool,
                                           a2: string, p2: string, m2: string, u2: string, plain2: bool)
    requires IsBytes(a1) && IsBytes(p1) && IsBytes(m1) && IsBytes(u1) && TrimBytes(a1) != ""
    requires IsBytes(a2) && IsBytes(p2) && IsBytes(m2) && IsBytes(u2) && TrimBytes(a2) != ""
    requires BuildToken(a1, p1, m1, u1, plain1) == BuildToken(a2, p2, m2, u2, plain2)
    ensures TrimBytes(a1) == TrimBytes(a2) && Lower(TrimBytes(p1)) == Lower(TrimBytes(p2))
    ensures TrimBytes(m1) == TrimBytes(m2) && TrimBytes(u1) == TrimBytes(u2)
  {
    hide TrimBytes, Lower, BuildToken, Parse;
    ParseUndoesBuild(a1, p1, m1, u1, plain1, false);
    ParseUndoesBuild(a2, p2, m2, u2, plain2, false);
  }

  /** An encoded upstream key counts before a plain one, an encoded access key before a plain one. */
  lemma {:induction false} EncodedKeysComeFirst(fs: seq<Field>, u: string, k: string, allow: bool)
    requires IsBytes(u) && IsBytes(k) && u != "" && k != ""
    requires Get(fs, "uk64") == Encode64(u) && Get(fs, "k64") == Encode64(k)
    ensures var r := ParseFields(fs, allow);
            r.Parsed? && r.claims.upstream == TrimBytes(u) && r.accessKey == TrimBytes(k)
            && (r.claims.byok <==> TrimBytes(u) != "")
  {
    hide TrimBytes, Encode64, Decode64, Lower, Get;
    EncodedDigits(u);
    EncodedDigits(k);
    GraphicIsTrimmed(Encode64(u));
    GraphicIsTrimmed(Encode64(k));
    Decode64UndoesEncode64(u);
    Decode64UndoesEncode64(k);
  }

  /** A key field that is not blank and no strict encoding is refused, the upstream key first. */
  lemma {:induction false} BadEncodingsAreRefused(fs: seq<Field>, allow: bool)
    ensures TrimBytes(Get(fs, "uk64")) != "" && Decode64(TrimBytes(Get(fs, "uk64"))) == None ==>
              ParseFields(fs, allow) == InvalidUk64
    ensures Get(fs, "uk64") == "" && TrimBytes(Get(fs, "k64")) != "" && Decode64(TrimBytes(Get(fs, "k64"))) == None ==>
              ParseFields(fs, allow) == InvalidK64
  {
    hide Decode64, Lower, Get;
    GraphicIsTrimmed("");
    hide TrimBytes;
  }
}
