/** The text operations that the printers and readers of the wire format share. */
module Text {

  /** Why a reader refused; `Panic` is a reader that aborts instead of returning an error. */
  datatype Reason = BadNumber | BadBool | MissingField(name: string) | NeedsPayload(variant: string)
    | UnmatchedParenthesis

  datatype Parsed<+T> = Ok(value: T) | Err(reason: Reason) | Panic

  // ---------------------------------------------------------------- white space

  /** The Unicode white space that trimming removes. */
  predicate IsWhitespace(c: char) {
    || '\t' <= c <= '\r'
    || c == ' ' || c == '\U{0085}' || c == '\U{00A0}' || c == '\U{1680}'
    || '\U{2000}' <= c <= '\U{200A}'
    || c == '\U{2028}' || c == '\U{2029}' || c == '\U{202F}' || c == '\U{205F}' || c == '\U{3000}'
  }

  function TrimStart(s: string): string {
    if s != "" && IsWhitespace(s[0]) then TrimStart(s[1..]) else s
  }

  function TrimEnd(s: string): string {
    if s != "" && IsWhitespace(s[|s| - 1]) then TrimEnd(s[..|s| - 1]) else s
  }

  function Trim(s: string): string {
    TrimEnd(TrimStart(s))
  }

  /** Nothing to trim at either end. */
  predicate Tight(s: string) {
    s != "" ==> !IsWhitespace(s[0]) && !IsWhitespace(s[|s| - 1])
  }

  lemma TrimEndIsPrefix(s: string)
    ensures TrimEnd(s) <= s
    ensures TrimEnd(s) == s <==> (s == "" || !IsWhitespace(s[|s| - 1]))
  {
  }

  lemma TrimStartShrinks(s: string)
    ensures |TrimStart(s)| <= |s|
    ensures |TrimStart(s)| == |s| <==> (s == "" || !IsWhitespace(s[0]))
  {
  }

  lemma TrimIffTight(s: string)
    ensures Trim(s) == s <==> Tight(s)
  {
    TrimEndIsPrefix(TrimStart(s));
    TrimStartShrinks(s);
  }

  function StripStart(c: char, s: string): string {
    if s != "" && s[0] == c then StripStart(c, s[1..]) else s
  }

  function StripEnd(c: char, s: string): string {
    if s != "" && s[|s| - 1] == c then StripEnd(c, s[..|s| - 1]) else s
  }

  /** Stripping every bracket gives back the inside when the inside has none of its own at its ends. */
  lemma StripBrackets(t: string)
    requires t != "" ==> t[0] != '[' && t[|t| - 1] != ']'
    ensures StripEnd(']', StripStart('[', "[" + t + "]")) == t
  {
    var s := "[" + t + "]";
    assert s[1..] == t + "]";
    assert StripStart('[', s) == t + "]" by {
      assert (t + "]")[0] != '[';
    }
    assert (t + "]")[..|t|] == t;
  }

  // ---------------------------------------------------------------- joining

  function Join(parts: seq<string>, sep: string): string {
    if |parts| == 0 then ""
    else if |parts| == 1 then parts[0]
    else parts[0] + sep + Join(parts[1..], sep)
  }

  predicate Contains(s: string, t: string) {
    t <= s || (s != "" && Contains(s[1..], t))
  }

  // ---------------------------------------------------------------- quoted strings

  function Escape(s: string): string {
    if s == "" then "" else (if s[0] == '"' then "\\\"" else [s[0]]) + Escape(s[1..])
  }

  function Unescape(s: string): string {
    if s == "" then ""
    else if |s| >= 2 && s[0] == '\\' && s[1] == '"' then "\"" + Unescape(s[2..])
    else [s[0]] + Unescape(s[1..])
  }

  function PrintString(s: string): string {
    if ' ' in s then "\"" + Escape(s) + "\"" else s
  }

  /** A lone quote both starts and ends the text, and slicing between its ends aborts. */
  function ReadString(text: string): Parsed<string> {
    var s := Trim(text);
    if s != "" && s[0] == '"' && s[|s| - 1] == '"' then
      if |s| < 2 then Panic else Ok(Unescape(s[1..|s| - 1]))
    else
      Ok(s)
  }

  lemma {:induction false} EscapeRoundTrip(s: string)
    ensures Escape(s) != "" ==> Escape(s)[0] != '"'
    ensures Unescape(Escape(s)) == s
    ensures Escape(s) == "" <==> s == ""
  {
    if s != "" {
      EscapeRoundTrip(s[1..]);
      var rest := Escape(s[1..]);
      if s[0] == '"' {
        assert ("\\\"" + rest)[2..] == rest;
      } else {
        assert ([s[0]] + rest)[1..] == rest;
        assert Unescape([s[0]] + rest) == [s[0]] + Unescape(rest);
      }
    }
  }

  /**
   A string survives printing and reading exactly when it is quoted because of a space, or has
   no white space at its ends and is not itself enclosed in quotes.
   */
  lemma StringRoundTrip(s: string)
    ensures ReadString(PrintString(s)) == Ok(s)
       <==> ' ' in s || (Tight(s) && !(s != "" && s[0] == '"' && s[|s| - 1] == '"'))
  {
    if ' ' in s {
      var p := PrintString(s);
      TrimIffTight(p);
      EscapeRoundTrip(s);
      assert p[1..|p| - 1] == Escape(s);
    } else {
      UnescapeShrinks(s);
    }
  }

  lemma UnescapeShorter(s: string)
    ensures |Unescape(s)| <= |s|
  {
  }

  lemma UnescapeShrinks(s: string)
    ensures var t := Trim(s); t != "" && |t| >= 2 ==> |Unescape(t[1..|t| - 1])| < |s|
    ensures Trim(s) == s <==> Tight(s)
  {
    var t := Trim(s);
    TrimIffTight(s);
    TrimEndIsPrefix(TrimStart(s));
    TrimStartShrinks(s);
    if |t| >= 2 {
      UnescapeShorter(t[1..|t| - 1]);
    }
  }

  // ---------------------------------------------------------------- numbers

  const DIGITS: string := "0123456789"

  predicate IsDigit(c: char) {
    '0' <= c <= '9'
  }

  predicate AllDigits(s: string) {
    forall i :: 0 <= i < |s| ==> IsDigit(s[i])
  }

  function NatText(n: nat): string {
    if n < 10 then [DIGITS[n]] else NatText(n / 10) + [DIGITS[n % 10]]
  }

  function IntText(n: int): string {
    if n < 0 then "-" + NatText(-n) else NatText(n)
  }

  function DigitsValue(s: string): nat
    requires AllDigits(s)
  {
    if s == "" then 0
    else 10 * DigitsValue(s[..|s| - 1]) + (s[|s| - 1] as int - '0' as int)
  }

  /** A sign is accepted only before at least one digit. */
  function ReadNat(s: string, max: nat): Parsed<nat> {
    var t := if |s| > 1 && s[0] == '+' then s[1..] else s;
    if t != "" && AllDigits(t) && DigitsValue(t) <= max then Ok(DigitsValue(t)) else Err(BadNumber)
  }

  function ReadInt(s: string, min: int, max: int): Parsed<int> {
    var negative := |s| > 1 && s[0] == '-';
    var t := if |s| > 1 && (s[0] == '+' || s[0] == '-') then s[1..] else s;
    if t != "" && AllDigits(t) then
      var d: int := DigitsValue(t);
      var v := if negative then -d else d;
      if min <= v <= max then Ok(v) else Err(BadNumber)
    else
      Err(BadNumber)
  }

  lemma {:induction false} NatTextValue(n: nat)
    ensures NatText(n) != "" && AllDigits(NatText(n)) && DigitsValue(NatText(n)) == n
  {
    if n >= 10 {
      NatTextValue(n / 10);
      assert NatText(n)[..|NatText(n)| - 1] == NatText(n / 10);
      DigitAt(n % 10);
    } else {
      DigitAt(n);
    }
  }

  lemma DigitAt(d: nat)
    requires d < 10
    ensures IsDigit(DIGITS[d]) && DIGITS[d] as int - '0' as int == d
  {
  }

  lemma NatRoundTrip(n: nat, max: nat)
    ensures ReadNat(NatText(n), max) == if n <= max then Ok(n) else Err(BadNumber)
  {
    NatTextValue(n);
    assert NatText(n)[0] != '+';
  }

  lemma IntRoundTrip(n: int, min: int, max: int)
    ensures ReadInt(IntText(n), min, max) == if min <= n <= max then Ok(n) else Err(BadNumber)
  {
    hide NatText, DigitsValue;
    if n < 0 {
      NatTextValue(-n);
      SignedRead(NatText(-n), min, max);
    } else {
      NatTextValue(n);
      UnsignedRead(NatText(n), min, max);
    }
  }

  lemma SignedRead(t: string, min: int, max: int)
    requires t != "" && AllDigits(t)
    ensures ReadInt("-" + t, min, max) == if min <= 0 - DigitsValue(t) <= max then Ok(0 - DigitsValue(t))
      else Err(BadNumber)
  {
    hide DigitsValue;
    assert ("-" + t)[1..] == t;
  }

  lemma UnsignedRead(t: string, min: int, max: int)
    requires t != "" && AllDigits(t)
    ensures ReadInt(t, min, max) == if min <= DigitsValue(t) <= max then Ok(DigitsValue(t)) else Err(BadNumber)
  {
    hide DigitsValue;
    assert t[0] != '+' && t[0] != '-';
  }
}
