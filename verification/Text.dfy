/** Go's `strings.TrimSpace`, `strings.Trim(s, ":")` and `strings.Join`, and lower-casing of ASCII letters. */
module Text {

  /** The Unicode white space that `unicode.IsSpace` recognises. */
  predicate IsSpace(c: char) {
    var n := c as int;
    n == 0x20 || 9 <= n <= 13 || n == 0x85 || n == 0xA0 || n == 0x1680 || 0x2000 <= n <= 0x200A
    || n == 0x2028 || n == 0x2029 || n == 0x202F || n == 0x205F || n == 0x3000
  }

  predicate IsColon(c: char) { c == ':' }

  /** `s` without its longest prefix of characters in `cut`. */
  function TrimLeft(s: string, cut: char -> bool): string {
    if s != "" && cut(s[0]) then TrimLeft(s[1..], cut) else s
  }

  /** `s` without its longest suffix of characters in `cut`. */
  function TrimRight(s: string, cut: char -> bool): string {
    if s != "" && cut(s[|s| - 1]) then TrimRight(s[..|s| - 1], cut) else s
  }

  function Trim(s: string, cut: char -> bool): string {
    TrimRight(TrimLeft(s, cut), cut)
  }

  function TrimSpace(s: string): string { Trim(s, IsSpace) }

  /** What `Client.key` makes of one part of a Redis key: spaces off first, then colons. */
  function KeyPart(s: string): string { Trim(TrimSpace(s), IsColon) }

  function LowerChar(c: char): char {
    if 'A' <= c <= 'Z' then ((c as int) + 32) as char else c
  }

  function Lower(s: string): string {
    if s == "" then "" else [LowerChar(s[0])] + Lower(s[1..])
  }

  function Join(parts: seq<string>, sep: string): string {
    if |parts| == 0 then "" else if |parts| == 1 then parts[0] else parts[0] + sep + Join(parts[1..], sep)
  }

  /** Both ends of the text are outside `cut`. */
  predicate Ends(s: string, cut: char -> bool) {
    s == "" || (!cut(s[0]) && !cut(s[|s| - 1]))
  }

  lemma {:induction false} TrimLeftEnds(s: string, cut: char -> bool)
    ensures var r := TrimLeft(s, cut); |r| <= |s| && s[|s| - |r|..] == r && (r != "" ==> !cut(r[0]))
  {
    if s != "" && cut(s[0]) { TrimLeftEnds(s[1..], cut); }
  }

  lemma {:induction false} TrimRightEnds(s: string, cut: char -> bool)
    ensures var r := TrimRight(s, cut); |r| <= |s| && s[..|r|] == r && (r != "" ==> !cut(r[|r| - 1]))
  {
    if s != "" && cut(s[|s| - 1]) { TrimRightEnds(s[..|s| - 1], cut); }
  }

  /** A character outside `cut` survives trimming. */
  lemma {:induction false} TrimKeeps(s: string, i: nat, cut: char -> bool)
    requires i < |s| && !cut(s[i])
    ensures Trim(s, cut) != ""
  {
    if cut(s[0]) {
      TrimKeeps(s[1..], i - 1, cut);
    } else {
      TrimRightStopsAt(s, cut);
    }
  }

  lemma {:induction false} TrimRightStopsAt(s: string, cut: char -> bool)
    requires s != "" && !cut(s[0])
    ensures TrimRight(s, cut) != ""
  {
    if cut(s[|s| - 1]) { TrimRightStopsAt(s[..|s| - 1], cut); }
  }

  /** Trimming yields text with kept ends, and is the identity exactly on such text. */
  lemma {:induction false} TrimMeaning(s: string, cut: char -> bool)
    ensures Ends(Trim(s, cut), cut) && |Trim(s, cut)| <= |s|
    ensures Trim(s, cut) == s <==> Ends(s, cut)
  {
    TrimLeftEnds(s, cut);
    TrimRightEnds(TrimLeft(s, cut), cut);
  }

  lemma {:induction false} TrimRightAppend(p: string, q: string, cut: char -> bool)
    ensures TrimRight(p + q, cut) == if TrimRight(q, cut) == "" then TrimRight(p, cut) else p + TrimRight(q, cut)
  {
    if q == "" {
      assert p + q == p;
    } else if cut(q[|q| - 1]) {
      TrimRightAppend(p, q[..|q| - 1], cut);
      assert (p + q)[..|p + q| - 1] == p + q[..|q| - 1];
    }
  }

  lemma {:induction false} TrimLeftStopsAt(s: string, cut: char -> bool)
    requires s != "" && !cut(s[|s| - 1])
    ensures TrimLeft(s, cut) != ""
  {
    if cut(s[0]) { TrimLeftStopsAt(s[1..], cut); }
  }

  /** The two ends are trimmed independently. */
  lemma {:induction false} TrimsCommute(s: string, cut: char -> bool)
    ensures TrimRight(TrimLeft(s, cut), cut) == TrimLeft(TrimRight(s, cut), cut)
  {
    if s != "" {
      assert s == [s[0]] + s[1..];
      TrimRightAppend([s[0]], s[1..], cut);
      assert [s[0]][..0] == "";
      if cut(s[0]) { TrimsCommute(s[1..], cut); }
    }
  }

  lemma {:induction false} TrimSpaceKeeps(s: string)
    requires Ends(s, IsSpace)
    ensures TrimSpace(s) == s
  {
    TrimMeaning(s, IsSpace);
  }

  lemma {:induction false} TrimSpaceIdempotent(s: string)
    ensures TrimSpace(TrimSpace(s)) == TrimSpace(s)
  {
    TrimMeaning(s, IsSpace);
    TrimMeaning(TrimSpace(s), IsSpace);
  }

  /** The trimmed text without its trailing colons. */
  function Stem(a: string): string { TrimRight(TrimSpace(a), IsColon) }

  /** The key part is the stem without its leading colons. */
  lemma {:induction false} StemDeterminesKeyPart(a: string)
    ensures KeyPart(a) == TrimLeft(Stem(a), IsColon)
    ensures KeyPart(a) == "" <==> Stem(a) == ""
  {
    TrimsCommute(TrimSpace(a), IsColon);
    TrimRightEnds(TrimSpace(a), IsColon);
    if Stem(a) != "" { TrimLeftStopsAt(Stem(a), IsColon); }
  }

  lemma {:induction false} LowerKeepsLower(s: string)
    requires forall i :: 0 <= i < |s| ==> !('A' <= s[i] <= 'Z')
    ensures Lower(s) == s
  {
    if s != "" { LowerKeepsLower(s[1..]); }
  }
}
