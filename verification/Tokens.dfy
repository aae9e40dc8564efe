/** The token estimate of a serialised request, and why a longer text never counts for less. */
module Tokens {
  function CountAscii(s: string): (n: nat)
    ensures n <= |s|
  {
    if s == "" then 0 else (if s[0] as int < 128 then 1 else 0) + CountAscii(s[1..])
  }

  function EstimateTokens(s: string): nat {
    if s == "" then 0
    else
      var ascii := CountAscii(s);
      var estimate := (ascii + 3) / 4 + (|s| - ascii);
      if estimate < 1 then 1 else estimate
  }

  function HexDigit(n: nat): char
    requires n < 16
  {
    "0123456789abcdef"[n]
  }

  /** What one character becomes inside a JSON string when non-ASCII text is left as it is. */
  function EscapeChar(c: char): (r: string)
    ensures r != ""
  {
    var n := c as int;
    if c == '\"' then "\\\""
    else if c == '\\' then "\\\\"
    else if c == '\n' then "\\n"
    else if c == '\r' then "\\r"
    else if c == '\t' then "\\t"
    else if n == 8 then "\\b"
    else if n == 12 then "\\f"
    else if n < 32 then "\\u00" + [HexDigit(n / 16), HexDigit(n % 16)]
    else [c]
  }

  function Escape(s: string): string {
    if s == "" then "" else EscapeChar(s[0]) + Escape(s[1..])
  }

  function MessageOpen(role: string): string {
    "{\"role\":\"" + role + "\",\"content\":\""
  }

  const MESSAGE_CLOSE := "\"}"

  /** Tokens of a JSON text with one string in the middle, plus four. */
  function PayloadTokens(open: string, content: string, close: string): nat {
    EstimateTokens(open + Escape(content) + close) + 4
  }

  /** One message as it is counted: its compact JSON form, plus four. */
  function MessageTokens(role: string, content: string): nat {
    PayloadTokens(MessageOpen(role), content, MESSAGE_CLOSE)
  }

  function SummaryInputTokens(systemPrompt: string, userPrompt: string): nat {
    MessageTokens("system", systemPrompt) + MessageTokens("user", userPrompt)
  }

  lemma {:induction false} CountAsciiConcat(a: string, b: string)
    ensures CountAscii(a + b) == CountAscii(a) + CountAscii(b)
  {
    if a == "" {
      assert a + b == b;
    } else {
      assert (a + b)[1..] == a[1..] + b;
      CountAsciiConcat(a[1..], b);
    }
  }

  lemma {:induction false} EscapeConcat(a: string, b: string)
    ensures Escape(a + b) == Escape(a) + Escape(b)
  {
    if a == "" {
      assert a + b == b;
    } else {
      assert (a + b)[1..] == a[1..] + b;
      EscapeConcat(a[1..], b);
      assert EscapeChar(a[0]) + (Escape(a[1..]) + Escape(b)) == Escape(a) + Escape(b);
    }
  }

  /** Text inserted anywhere never lowers the estimate. */
  lemma InsertionNeverCheaper(before: string, inserted: string, after: string)
    ensures EstimateTokens(before + after) <= EstimateTokens(before + inserted + after)
  {
    CountAsciiConcat(before, after);
    CountAsciiConcat(before + inserted, after);
    CountAsciiConcat(before, inserted);
  }

  lemma Regroup(open: string, b: string, i: string, a: string, close: string)
    ensures open + (b + a) + close == (open + b) + (a + close)
    ensures open + (b + i + a) + close == (open + b) + i + (a + close)
  {
  }

  lemma InsertionNeverCheaperInside(open: string, b: string, i: string, a: string, close: string)
    ensures EstimateTokens(open + (b + a) + close) <= EstimateTokens(open + (b + i + a) + close)
  {
    Regroup(open, b, i, a, close);
    InsertionNeverCheaper(open + b, i, a + close);
  }

  /** The same for text inserted into a string that is then escaped and enclosed. */
  lemma InsertionNeverCheaperWhenEscaped(open: string, before: string, inserted: string, after: string, close: string)
    ensures PayloadTokens(open, before + after, close) <= PayloadTokens(open, before + inserted + after, close)
  {
    EscapeConcat(before, after);
    EscapeConcat(before + inserted, after);
    EscapeConcat(before, inserted);
    InsertionNeverCheaperInside(open, Escape(before), Escape(inserted), Escape(after), close);
  }

  predicate AllAscii(s: string) {
    forall i :: 0 <= i < |s| ==> s[i] as int < 128
  }

  lemma {:induction false} AsciiCounts(s: string)
    ensures AllAscii(s) ==> CountAscii(s) == |s|
    ensures (forall i :: 0 <= i < |s| ==> s[i] as int >= 128) ==> CountAscii(s) == 0
  {
    if s != "" {
      AsciiCounts(s[1..]);
      assert forall i :: 0 <= i < |s| - 1 ==> s[1..][i] == s[i + 1];
    }
  }

  /** Four ASCII characters make a token, begun ones count whole, and every other character makes one of its own. */
  lemma EstimateIs(ascii: string, other: string)
    requires AllAscii(ascii) && forall i :: 0 <= i < |other| ==> other[i] as int >= 128
    ensures 4 * (EstimateTokens(ascii + other) - |other|) >= |ascii|
    ensures 4 * (EstimateTokens(ascii + other) - |other|) < |ascii| + 4
  {
    AsciiCounts(ascii);
    AsciiCounts(other);
    CountAsciiConcat(ascii, other);
  }
}
