/**
 * The two Python string operations the core relies on: `str.strip()` with no
 * argument (which removes the characters for which `str.isspace()` holds) and
 * `str.lower()`, here restricted to ASCII letters.
 */
module PyText {

  /** Python's whitespace set: Unicode characters of category Zs or of
      bidirectional class WS, B or S. */
  predicate IsSpace(c: char) {
    var n := c as int;
    || (0x09 <= n <= 0x0D)
    || (0x1C <= n <= 0x20)
    || n == 0x85 || n == 0xA0 || n == 0x1680
    || (0x2000 <= n <= 0x200A)
    || n == 0x2028 || n == 0x2029 || n == 0x202F || n == 0x205F || n == 0x3000
  }

  ghost predicate AllSpace(s: string) {
    forall i :: 0 <= i < |s| ==> IsSpace(s[i])
  }

  /** `s` consists of `r` at offset `k`, surrounded by whitespace only. */
  ghost predicate Padded(s: string, k: nat, r: string) {
    && k + |r| <= |s|
    && s[k..k + |r|] == r
    && AllSpace(s[..k])
    && AllSpace(s[k + |r|..])
  }

  /** Neither end of `r` is whitespace. */
  predicate Unpadded(r: string) {
    r == [] || (!IsSpace(r[0]) && !IsSpace(r[|r| - 1]))
  }

  /** The number of whitespace characters at the start of `s`. */
  function LeadingSpace(s: string): (n: nat)
    ensures n <= |s|
    ensures forall i :: 0 <= i < n ==> IsSpace(s[i])
    ensures n < |s| ==> !IsSpace(s[n])
  {
    if s != [] && IsSpace(s[0]) then 1 + LeadingSpace(s[1..]) else 0
  }

  /** The number of whitespace characters at the end of `s`. */
  function TrailingSpace(s: string): (n: nat)
    ensures n <= |s|
    ensures forall i :: |s| - n <= i < |s| ==> IsSpace(s[i])
    ensures n < |s| ==> !IsSpace(s[|s| - 1 - n])
  {
    if s != [] && IsSpace(s[|s| - 1]) then 1 + TrailingSpace(s[..|s| - 1]) else 0
  }

  /** `s.strip()`. */
  function Strip(s: string): (r: string)
    ensures |r| <= |s|
  {
    var a := LeadingSpace(s);
    if a == |s| then [] else s[a..|s| - TrailingSpace(s)]
  }

  /** What `Strip` returns: the part of `s` left once all surrounding
      whitespace is removed, so that neither of its ends is whitespace. */
  lemma StripSpec(s: string)
    ensures Unpadded(Strip(s))
    ensures exists k :: Padded(s, k, Strip(s))
  {
    var a := LeadingSpace(s);
    if a == |s| {
      assert Padded(s, 0, []) by { assert s[..0] == [] && s[0..] == s; }
    } else {
      var b := |s| - TrailingSpace(s);
      assert a < b;
      assert Padded(s, a, s[a..b]) by { assert s[a..b][..] == s[a..a + (b - a)]; }
    }
  }

  /** Strip is characterised by Padded and Unpadded: any unpadded core of
      `s` surrounded by whitespace is `Strip(s)`. */
  lemma StripUnique(s: string, k: nat, r: string)
    requires Padded(s, k, r) && Unpadded(r)
    ensures r == Strip(s)
  {
    var a := LeadingSpace(s);
    if r == [] {
      assert s == s[..k] + s[k..];
      assert AllSpace(s) by {
        forall i | 0 <= i < |s| ensures IsSpace(s[i]) {
          if i < k { assert s[..k][i] == s[i]; } else { assert s[k..][i - k] == s[i]; }
        }
      }
      assert a == |s|;
    } else {
      assert s[k] == r[0];
      forall i | 0 <= i < k ensures IsSpace(s[i]) { assert s[..k][i] == s[i]; }
      assert a == k;
      var e := k + |r|;
      assert s[e - 1] == r[|r| - 1];
      forall i | e <= i < |s| ensures IsSpace(s[i]) { assert s[e..][i - e] == s[i]; }
      assert |s| - TrailingSpace(s) == e;
    }
  }

  /** A string without whitespace at either end is its own stripped form. */
  lemma StripUnpadded(r: string)
    requires Unpadded(r)
    ensures Strip(r) == r
  {
    assert Padded(r, 0, r) by { assert r[..0] == [] && r[0..|r|] == r && r[|r|..] == []; }
    StripUnique(r, 0, r);
  }

  /** Stripping twice is stripping once. */
  lemma StripIdempotent(s: string)
    ensures Strip(Strip(s)) == Strip(s)
  {
    StripSpec(s);
    StripUnpadded(Strip(s));
  }

  function LowerChar(c: char): char {
    if 'A' <= c <= 'Z' then (c as int + 32) as char else c
  }

  /** `s.lower()` on ASCII letters; every other character is kept. */
  function Lower(s: string): (r: string)
    ensures |r| == |s|
    ensures forall i :: 0 <= i < |s| ==> r[i] == LowerChar(s[i])
  {
    if s == [] then [] else [LowerChar(s[0])] + Lower(s[1..])
  }

  /** A string without ASCII upper-case letters is its own lower-cased form. */
  lemma LowerUnchanged(s: string)
    requires forall i :: 0 <= i < |s| ==> !('A' <= s[i] <= 'Z')
    ensures Lower(s) == s
  {
    assert |Lower(s)| == |s|;
    forall i | 0 <= i < |s| ensures Lower(s)[i] == s[i] {
      assert Lower(s)[i] == LowerChar(s[i]);
    }
  }

  /** The only characters that lower to the ASCII letter `l` are `l` and its
      upper-case form. */
  lemma LowerCharTo(c: char, l: char)
    requires 'a' <= l <= 'z'
    ensures LowerChar(c) == l <==> c == l || c as int == l as int - 32
  {
  }

  /** A five-character string is "start" iff it spells it character by
      character. */
  lemma SpellsStart(l: string)
    requires |l| == 5
    ensures l == "start" <==> l[0] == 's' && l[1] == 't' && l[2] == 'a' && l[3] == 'r' && l[4] == 't'
  {
  }

  /** A command equals "start" after lowering exactly when it spells
      "start" in any mix of upper- and lower-case letters. */
  lemma LowerIsStart(s: string)
    ensures Lower(s) == "start" <==>
            && |s| == 5
            && (s[0] == 's' || s[0] == 'S') && (s[1] == 't' || s[1] == 'T') && (s[2] == 'a' || s[2] == 'A')
            && (s[3] == 'r' || s[3] == 'R') && (s[4] == 't' || s[4] == 'T')
  {
    if |s| == 5 {
      var l := Lower(s);
      assert l[0] == LowerChar(s[0]) && l[1] == LowerChar(s[1]) && l[2] == LowerChar(s[2]);
      assert l[3] == LowerChar(s[3]) && l[4] == LowerChar(s[4]);
      SpellsStart(l);
      LowerCharTo(s[0], 's');
      LowerCharTo(s[1], 't');
      LowerCharTo(s[2], 'a');
      LowerCharTo(s[3], 'r');
      LowerCharTo(s[4], 't');
    }
  }
}
