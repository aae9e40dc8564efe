/** Strings as the agent code sees them: trimming and the two sums the token estimate is built on. */
module Text {

  datatype Option<+T> = None | Some(value: T)

  /** The characters Python's `str.strip` removes. */
  predicate IsSpace(c: char) {
    var n := c as int;
    || 9 <= n <= 13 || 28 <= n <= 32 || n == 0x85 || n == 0xA0 || n == 0x1680
    || 0x2000 <= n <= 0x200A || n == 0x2028 || n == 0x2029 || n == 0x202F || n == 0x205F || n == 0x3000
  }

  function StripLeft(s: string): string {
    if s != "" && IsSpace(s[0]) then StripLeft(s[1..]) else s
  }

  function StripRight(s: string): string {
    if s != "" && IsSpace(s[|s| - 1]) then StripRight(s[..|s| - 1]) else s
  }

  function Strip(s: string): string {
    StripRight(StripLeft(s))
  }

  /** A string is trimmed when it has no white space at either end. */
  predicate Trimmed(s: string) {
    s != "" ==> !IsSpace(s[0]) && !IsSpace(s[|s| - 1])
  }

  predicate AllSpace(s: string) {
    forall i :: 0 <= i < |s| ==> IsSpace(s[i])
  }

  lemma {:induction false} StripLeftIs(s: string)
    ensures StripLeft(s) != "" ==> !IsSpace(StripLeft(s)[0])
    ensures |StripLeft(s)| <= |s| && StripLeft(s) == s[|s| - |StripLeft(s)|..]
    ensures AllSpace(s[..|s| - |StripLeft(s)|])
  {
    if s != "" && IsSpace(s[0]) {
      StripLeftIs(s[1..]);
      var n := |s| - |StripLeft(s)|;
      assert s[..n] == [s[0]] + s[1..][..n - 1];
    }
  }

  lemma {:induction false} StripRightIs(s: string)
    ensures StripRight(s) != "" ==> !IsSpace(StripRight(s)[|StripRight(s)| - 1])
    ensures |StripRight(s)| <= |s| && StripRight(s) == s[..|StripRight(s)|]
    ensures AllSpace(s[|StripRight(s)|..])
  {
    if s != "" && IsSpace(s[|s| - 1]) {
      StripRightIs(s[..|s| - 1]);
      var n := |StripRight(s)|;
      assert s[n..] == s[..|s| - 1][n..] + [s[|s| - 1]];
    }
  }

  /** `strip` gives a trimmed string, and changes nothing but untrimmed ones. */
  lemma StripTrims(s: string)
    ensures Trimmed(Strip(s))
    ensures Strip(s) == s <==> Trimmed(s)
    ensures Strip(s) == "" <==> AllSpace(s)
  {
    var l := StripLeft(s);
    var r := StripRight(l);
    StripLeftIs(s);
    StripRightIs(l);
    if r != "" {
      assert r[0] == l[0];
      assert l[0] == s[|s| - |l|];
    } else {
      assert s == s[..|s| - |l|] + l[0..];
    }
  }

  /** The string without the white space around it. */
  ghost predicate TrimmedFrom(t: string, s: string) {
    Trimmed(t) && exists i, j :: 0 <= i <= j <= |s| && t == s[i..j] && AllSpace(s[..i]) && AllSpace(s[j..])
  }

  /** `strip` takes away white space at the ends and nothing else. */
  lemma StripIsMiddle(s: string)
    ensures TrimmedFrom(Strip(s), s)
  {
    var l := StripLeft(s);
    var r := StripRight(l);
    StripLeftIs(s);
    StripRightIs(l);
    StripTrims(s);
    var i, j := |s| - |l|, |s| - |l| + |r|;
    assert r == s[i..j] && s[j..] == l[|r|..];
  }

  /** A trimmed text starts no later and ends no earlier than any other middle with white space around it. */
  lemma TrimmedWithin(s: string, i: nat, j: nat, k: nat, l: nat)
    requires i <= j <= |s| && k <= l <= |s| && Trimmed(s[i..j]) && AllSpace(s[..k]) && AllSpace(s[l..])
    ensures i < j ==> k <= i && j <= l
  {
    forall n | 0 <= n < k ensures IsSpace(s[n]) {
      assert s[..k][n] == s[n];
    }
    forall n | l <= n < |s| ensures IsSpace(s[n]) {
      assert s[l..][n - l] == s[n];
    }
    if i < j {
      assert s[i..j][0] == s[i] && s[i..j][j - i - 1] == s[j - 1];
    }
  }

  lemma TrimmedOnce(s: string, a: string, b: string)
    requires TrimmedFrom(a, s) && TrimmedFrom(b, s)
    ensures a == b
  {
    var i, j :| 0 <= i <= j <= |s| && a == s[i..j] && AllSpace(s[..i]) && AllSpace(s[j..]);
    var k, l :| 0 <= k <= l <= |s| && b == s[k..l] && AllSpace(s[..k]) && AllSpace(s[l..]);
    TrimmedWithin(s, i, j, k, l);
    TrimmedWithin(s, k, l, i, j);
  }

  /** The part occurs in the whole, character by character. */
  ghost predicate Inside(part: string, whole: string) {
    exists before, after :: whole == before + part + after
  }

  lemma InsideOf(part: string, before: string, after: string)
    ensures Inside(part, before + part + after)
  {
  }

  lemma InsideMore(part: string, whole: string, before: string, after: string)
    requires Inside(part, whole)
    ensures Inside(part, before + whole + after)
  {
    var b, a :| whole == b + part + a;
    assert before + whole + after == (before + b) + part + (a + after);
  }

  function Join(parts: seq<string>, separator: string): string {
    if parts == [] then ""
    else if |parts| == 1 then parts[0]
    else parts[0] + separator + Join(parts[1..], separator)
  }

  lemma {:induction false} PartInJoin(parts: seq<string>, separator: string, i: nat)
    requires i < |parts|
    ensures Inside(parts[i], Join(parts, separator))
  {
    var rest := Join(parts[1..], separator);
    if |parts| == 1 {
      InsideOf(parts[0], "", "");
      assert "" + parts[0] + "" == parts[0];
    } else if i == 0 {
      InsideOf(parts[0], "", separator + rest);
      assert "" + parts[0] + (separator + rest) == parts[0] + separator + rest;
    } else {
      PartInJoin(parts[1..], separator, i - 1);
      InsideMore(parts[i], rest, parts[0] + separator, "");
      assert parts[0] + separator + rest + "" == Join(parts, separator);
    }
  }

  function Concat(parts: seq<string>): string {
    if parts == [] then "" else parts[0] + Concat(parts[1..])
  }
}
