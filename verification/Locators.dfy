/** JSON Pointer locators: `_escape_pointer` of `definition.py`, and `_tokens` and
    `_array_index` of `compilation.py`, after sections 3 and 4 of RFC 6901. */
module Locators {
  import opened Options

  // ---------------------------------------------------------------- escaping

  /** `str.replace` of one character. */
  function ReplaceChar(s: string, c: char, with: string): string {
    if s == "" then "" else (if s[0] == c then with else [s[0]]) + ReplaceChar(s[1..], c, with)
  }

  /** `str.replace` of a pair of characters, from the left, without overlaps. */
  function ReplacePair(s: string, a: char, b: char, with: string): string
    decreases |s|
  {
    if s == "" then ""
    else if |s| >= 2 && s[0] == a && s[1] == b then with + ReplacePair(s[2..], a, b, with)
    else [s[0]] + ReplacePair(s[1..], a, b, with)
  }

  /** `_escape_pointer`. */
  function Escape(s: string): string {
    ReplaceChar(ReplaceChar(s, '~', "~0"), '/', "~1")
  }

  function Unescape(s: string): string {
    ReplacePair(ReplacePair(s, '~', '1', "/"), '~', '0', "~")
  }

  /** No tilde without a following 0 or 1. */
  predicate TildesPaired(part: string) {
    forall i :: 0 <= i < |part| && part[i] == '~' ==> i + 1 < |part| && (part[i + 1] == '0' || part[i + 1] == '1')
  }

  predicate NoSlash(part: string) {
    '/' !in part
  }

  lemma ReplaceCharJoins(s: string, t: string, c: char, with: string)
    ensures ReplaceChar(s + t, c, with) == ReplaceChar(s, c, with) + ReplaceChar(t, c, with)
  {
    if s == "" {
      assert s + t == t;
    } else {
      assert (s + t)[1..] == s[1..] + t;
      ReplaceCharJoins(s[1..], t, c, with);
    }
  }

  /** Escaping works character by character. */
  lemma EscapeStep(s: string)
    requires s != ""
    ensures Escape(s) == EscapeChar(s[0]) + Escape(s[1..])
  {
    var head := if s[0] == '~' then "~0" else [s[0]];
    ReplaceCharJoins(head, ReplaceChar(s[1..], '~', "~0"), '/', "~1");
    assert ReplaceChar(head, '/', "~1") == EscapeChar(s[0]) by {
      if s[0] == '~' {
        assert "~0"[1..] == "0" && "0"[1..] == "";
        assert ReplaceChar("0", '/', "~1") == "0";
      } else {
        assert [s[0]][1..] == "";
      }
    }
  }

  function EscapeChar(c: char): string {
    if c == '~' then "~0" else if c == '/' then "~1" else [c]
  }

  lemma {:induction false} EscapeIsPart(s: string)
    ensures NoSlash(Escape(s)) && TildesPaired(Escape(s))
  {
    if s != "" {
      EscapeStep(s);
      EscapeIsPart(s[1..]);
      var e, head, rest := Escape(s), EscapeChar(s[0]), Escape(s[1..]);
      forall i | 0 <= i < |e| && e[i] == '~' ensures i + 1 < |e| && (e[i + 1] == '0' || e[i + 1] == '1') {
        if i >= |head| {
          assert e[i] == rest[i - |head|] && (i + 1 < |e| ==> e[i + 1] == rest[i + 1 - |head|]);
        }
      }
    }
  }

  /** Unescaping also works pair by pair on a part: the order of the two replacements is what
      keeps `~01` from becoming a slash. */
  lemma {:induction false} UnescapeStep(part: string)
    requires part != "" && TildesPaired(part) && NoSlash(part)
    ensures part[0] == '~' ==> |part| >= 2 && TildesPaired(part[2..]) && NoSlash(part[2..])
    ensures part[0] == '~' ==> Unescape(part) == (if part[1] == '1' then "/" else "~") + Unescape(part[2..])
    ensures part[0] != '~' ==> TildesPaired(part[1..]) && NoSlash(part[1..])
    ensures part[0] != '~' ==> Unescape(part) == [part[0]] + Unescape(part[1..])
  {
    if part[0] == '~' {
      var rest := part[2..];
      forall i | 0 <= i < |rest| && rest[i] == '~' ensures i + 1 < |rest| && (rest[i + 1] == '0' || rest[i + 1] == '1') {
        assert part[i + 2] == '~';
      }
      var once := ReplacePair(rest, '~', '1', "/");
      if part[1] == '1' {
        assert ReplacePair(part, '~', '1', "/") == "/" + once;
        assert ("/" + once)[1..] == once;
      } else {
        assert part[1..][1..] == rest;
        assert ReplacePair(part, '~', '1', "/") == "~" + ("0" + once);
        assert "~" + ("0" + once) == "~0" + once;
        assert ("~0" + once)[2..] == once;
      }
    } else {
      var rest := part[1..];
      forall i | 0 <= i < |rest| && rest[i] == '~' ensures i + 1 < |rest| && (rest[i + 1] == '0' || rest[i + 1] == '1') {
        assert part[i + 1] == '~';
      }
      var once := ReplacePair(rest, '~', '1', "/");
      assert ReplacePair(part, '~', '1', "/") == [part[0]] + once;
      assert ([part[0]] + once)[1..] == once;
    }
  }

  /** Every string comes back from its escaped form. */
  lemma {:induction false} UnescapeEscape(s: string)
    ensures Unescape(Escape(s)) == s
  {
    if s != "" {
      EscapeStep(s);
      EscapeIsPart(s);
      UnescapeStep(Escape(s));
      UnescapeEscape(s[1..]);
      assert Escape(s)[|EscapeChar(s[0])|..] == Escape(s[1..]);
      assert s == [s[0]] + s[1..];
    }
  }

  /** Every part is the escaped form of what it unescapes to, so the re-encoding check of
      `_tokens` never refuses what its tilde check has let through. */
  lemma {:induction false} EscapeUnescape(part: string)
    requires TildesPaired(part) && NoSlash(part)
    ensures Escape(Unescape(part)) == part
    decreases |part|
  {
    if part != "" {
      UnescapeStep(part);
      if part[0] == '~' {
        EscapeUnescape(part[2..]);
        EscapeStep(Unescape(part));
        assert Unescape(part)[1..] == Unescape(part[2..]);
        assert part == part[..2] + part[2..];
      } else {
        EscapeUnescape(part[1..]);
        EscapeStep(Unescape(part));
        assert Unescape(part)[1..] == Unescape(part[1..]);
        assert part == [part[0]] + part[1..];
      }
    }
  }

  // ---------------------------------------------------------------- locators

  /** `str.split("/")`. */
  function Split(s: string): (parts: seq<string>)
    ensures parts != []
  {
    if s == "" then [""]
    else
      var rest := Split(s[1..]);
      if s[0] == '/' then [""] + rest else [[s[0]] + rest[0]] + rest[1..]
  }

  function Joined(parts: seq<string>): string
    requires parts != []
  {
    if |parts| == 1 then parts[0] else parts[0] + "/" + Joined(parts[1..])
  }

  lemma {:induction false} SplitParts(s: string)
    ensures forall i :: 0 <= i < |Split(s)| ==> NoSlash(Split(s)[i])
    ensures Joined(Split(s)) == s
  {
    if s != "" {
      SplitParts(s[1..]);
      var rest := Split(s[1..]);
      if s[0] == '/' {
        assert Split(s)[1..] == rest;
        assert s == "/" + s[1..];
      } else {
        assert Split(s)[1..] == rest[1..];
        assert s == [s[0]] + s[1..];
        forall i | 0 < i < |Split(s)| ensures NoSlash(Split(s)[i]) {
          assert Split(s)[i] == rest[i];
        }
      }
    }
  }

  lemma {:induction false} SplitJoined(parts: seq<string>)
    requires parts != [] && forall i :: 0 <= i < |parts| ==> NoSlash(parts[i])
    ensures Split(Joined(parts)) == parts
    decreases |parts|, |parts[0]|
  {
    if parts[0] != "" {
      var shorter := [parts[0][1..]] + parts[1..];
      assert Joined(parts)[1..] == Joined(shorter) by {
        assert shorter[1..] == parts[1..];
      }
      assert Joined(parts)[0] == parts[0][0];
      SplitJoined(shorter);
      assert [parts[0][0]] + parts[0][1..] == parts[0];
    } else if |parts| > 1 {
      assert Joined(parts)[1..] == Joined(parts[1..]);
      SplitJoined(parts[1..]);
    }
  }

  function EscapeAll(tokens: seq<string>): (parts: seq<string>)
    ensures |parts| == |tokens|
    ensures forall i :: 0 <= i < |tokens| ==> parts[i] == Escape(tokens[i])
  {
    seq(|tokens|, i requires 0 <= i < |tokens| => Escape(tokens[i]))
  }

  /** The locator of a path of tokens. */
  function Locator(tokens: seq<string>): string {
    Joined([""] + EscapeAll(tokens))
  }

  /** `_tokens`: refuses a locator that does not start with a slash and a part with a loose
      tilde, or one that does not re-encode to itself. */
  method Tokens(locator: string) returns (tokens: Option<seq<string>>)
    ensures tokens.Some? <==> TokensOf(locator).Some?
    ensures tokens == TokensOf(locator)
  {
    var parts := Split(locator);
    if locator == "" || locator[0] != '/' || |parts| < 2 {
      return None;
    }
    var decoded: seq<string> := [];
    var i := 1;
    while i < |parts|
      invariant 1 <= i <= |parts| && |decoded| == i - 1
      invariant forall j :: 1 <= j < i ==> Accepted(parts[j])
      invariant forall j :: 0 <= j < |decoded| ==> decoded[j] == Unescape(parts[j + 1])
    {
      if !TildesPaired(parts[i]) || Escape(Unescape(parts[i])) != parts[i] {
        return None;
      }
      decoded := decoded + [Unescape(parts[i])];
      i := i + 1;
    }
    assert decoded == UnescapeAll(parts[1..]);
    return Some(decoded);
  }

  predicate Accepted(part: string) {
    TildesPaired(part) && Escape(Unescape(part)) == part
  }

  function UnescapeAll(parts: seq<string>): (tokens: seq<string>)
    ensures |tokens| == |parts|
    ensures forall i :: 0 <= i < |parts| ==> tokens[i] == Unescape(parts[i])
  {
    seq(|parts|, i requires 0 <= i < |parts| => Unescape(parts[i]))
  }

  function TokensOf(locator: string): Option<seq<string>> {
    var parts := Split(locator);
    if locator == "" || locator[0] != '/' || |parts| < 2 then None
    else if exists j :: 1 <= j < |parts| && !Accepted(parts[j]) then None
    else Some(UnescapeAll(parts[1..]))
  }

  /** Reading the locator of any non-empty path gives the path. */
  lemma TokensOfLocator(tokens: seq<string>)
    requires tokens != []
    ensures TokensOf(Locator(tokens)) == Some(tokens)
  {
    var parts := [""] + EscapeAll(tokens);
    forall i | 0 <= i < |parts| ensures NoSlash(parts[i]) {
      if i > 0 {
        EscapeIsPart(tokens[i - 1]);
      }
    }
    SplitJoined(parts);
    assert Locator(tokens)[0] == '/';
    forall j | 1 <= j < |parts| ensures Accepted(parts[j]) && Unescape(parts[j]) == tokens[j - 1] {
      EscapeIsPart(tokens[j - 1]);
      UnescapeEscape(tokens[j - 1]);
    }
    assert UnescapeAll(parts[1..]) == tokens;
  }

  /** A locator that is read is the locator of what it is read as: each path has exactly one. */
  lemma LocatorOfTokens(locator: string)
    requires TokensOf(locator).Some?
    ensures TokensOf(locator).value != [] && Locator(TokensOf(locator).value) == locator
  {
    var parts := Split(locator);
    SplitParts(locator);
    assert parts[0] == "" by {
      assert Split(locator) == [""] + Split(locator[1..]);
    }
    assert [""] + EscapeAll(UnescapeAll(parts[1..])) == parts by {
      forall j | 1 <= j < |parts| ensures EscapeAll(UnescapeAll(parts[1..]))[j - 1] == parts[j] {
        assert Accepted(parts[j]);
      }
    }
  }

  // ---------------------------------------------------------------- array indices

  predicate Digit(c: char) {
    '0' <= c <= '9'
  }

  function DigitValue(c: char): nat
    requires Digit(c)
  {
    c as int - '0' as int
  }

  function DigitOf(d: nat): (c: char)
    requires d < 10
    ensures Digit(c) && DigitValue(c) == d
  {
    ('0' as int + d) as char
  }

  function Numeral(n: nat): string {
    var last := [DigitOf(n % 10)];
    if n < 10 then last else Numeral(n / 10) + last
  }

  function Reading(token: string): nat
    requires forall i :: 0 <= i < |token| ==> Digit(token[i])
  {
    if token == "" then 0
    else 10 * Reading(token[..|token| - 1]) + DigitValue(token[|token| - 1])
  }

  /** `_array_index`: decimal digits without a leading zero. */
  function ArrayIndex(token: string): Option<nat> {
    if token == "" || (exists i :: 0 <= i < |token| && !Digit(token[i])) || (|token| > 1 && token[0] == '0') then None
    else Some(Reading(token))
  }

  lemma {:induction false} NumeralIndex(n: nat)
    ensures ArrayIndex(Numeral(n)) == Some(n)
    ensures n > 0 ==> Numeral(n)[0] != '0'
  {
    var last := [DigitOf(n % 10)];
    if n >= 10 {
      NumeralIndex(n / 10);
      assert Numeral(n)[..|Numeral(n)| - 1] == Numeral(n / 10);
    } else {
      assert last[..0] == "" && Reading("") == 0;
      assert Reading(last) == n;
    }
  }

  /** A numeral without leading zero is the one its number is written as, so different tokens
      never name the same item. */
  lemma {:induction false} IndexNumeral(token: string)
    requires ArrayIndex(token).Some?
    ensures Numeral(ArrayIndex(token).value) == token
    decreases |token|
  {
    var n := Reading(token);
    var shorter := token[..|token| - 1];
    assert token == shorter + [token[|token| - 1]];
    if shorter != "" {
      assert ArrayIndex(shorter).Some?;
      IndexNumeral(shorter);
      LeadingDigit(shorter);
    }
  }

  lemma {:induction false} LeadingDigit(token: string)
    requires ArrayIndex(token).Some? && token[0] != '0'
    ensures Reading(token) > 0
    decreases |token|
  {
    var shorter := token[..|token| - 1];
    if shorter != "" {
      assert ArrayIndex(shorter).Some?;
      LeadingDigit(shorter);
    }
  }
}
