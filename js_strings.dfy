/** The string operations of JavaScript that the client uses:
    `startsWith`, `trim` and a case-insensitive regular-expression test
    for a literal word (`/duplicate/i.test(s)`). Strings are sequences of
    characters; no Unicode normalisation is involved in any of them. */
module JsStrings {

  /** `s.startsWith(prefix)`: `s` agrees with `prefix` on each of its
      positions. */
  predicate StartsWith(s: string, prefix: string)
    ensures StartsWith(s, prefix) ==> |prefix| <= |s| && forall k :: 0 <= k < |prefix| ==> s[k] == prefix[k]
    ensures |prefix| <= |s| && (forall k :: 0 <= k < |prefix| ==> s[k] == prefix[k]) ==> StartsWith(s, prefix)
  {
    |prefix| <= |s| && s[..|prefix|] == prefix
  }

  /** The characters `String.prototype.trim` removes: the WhiteSpace and
      LineTerminator code points of ECMAScript (tab, vertical tab, form
      feed, space, no-break space, the byte-order mark, every Space_Separator,
      line feed, carriage return, line and paragraph separators). */
  predicate IsWhiteSpace(c: char) {
    var n := c as int;
    n == 0x09 || n == 0x0A || n == 0x0B || n == 0x0C || n == 0x0D ||
    n == 0x20 || n == 0xA0 || n == 0x1680 || (0x2000 <= n <= 0x200A) ||
    n == 0x2028 || n == 0x2029 || n == 0x202F || n == 0x205F ||
    n == 0x3000 || n == 0xFEFF
  }

  /** Drops the leading white space: the result is a suffix of `s`, every
      dropped character is white space, and the result does not start
      with white space. */
  function TrimStart(s: string): (r: string)
    ensures |r| <= |s| && r == s[|s| - |r|..]
    ensures forall i :: 0 <= i < |s| - |r| ==> IsWhiteSpace(s[i])
    ensures r != [] ==> !IsWhiteSpace(r[0])
    decreases |s|
  {
    if |s| > 0 && IsWhiteSpace(s[0]) then TrimStart(s[1..]) else s
  }

  /** Drops the trailing white space: the result is a prefix of `s`, every
      dropped character is white space, and the result does not end with
      white space. */
  function TrimEnd(s: string): (r: string)
    ensures |r| <= |s| && r == s[..|r|]
    ensures forall i :: |r| <= i < |s| ==> IsWhiteSpace(s[i])
    ensures r != [] ==> !IsWhiteSpace(r[|r| - 1])
    decreases |s|
  {
    if |s| > 0 && IsWhiteSpace(s[|s| - 1]) then TrimEnd(s[..|s| - 1]) else s
  }

  predicate AllWhiteSpace(t: string) {
    forall i :: 0 <= i < |t| ==> IsWhiteSpace(t[i])
  }

  /** `s.trim()`: `s` is some white space, then the result, then some white
      space, and the result neither starts nor ends with white space. */
  function Trim(s: string): (r: string)
    ensures |r| <= |s|
    ensures exists lo :: (0 <= lo <= |s| - |r| && AllWhiteSpace(s[..lo]) &&
                          s[lo..][..|r|] == r && AllWhiteSpace(s[lo..][|r|..]))
    ensures r != [] ==> !IsWhiteSpace(r[0]) && !IsWhiteSpace(r[|r| - 1])
  {
    var t := TrimStart(s);
    var r := TrimEnd(t);
    var lo := |s| - |t|;
    assert s[lo..] == t;
    assert AllWhiteSpace(s[..lo]);
    assert AllWhiteSpace(t[|r|..]);
    r
  }

  /** A string that neither starts nor ends with white space is its own trim. */
  lemma TrimOfTrimmed(s: string)
    requires s != [] ==> !IsWhiteSpace(s[0]) && !IsWhiteSpace(s[|s| - 1])
    ensures Trim(s) == s
  {
    assert TrimStart(s) == s;
    assert TrimEnd(s) == s;
  }

  /** Trimming twice is trimming once. */
  lemma TrimIdempotent(s: string)
    ensures Trim(Trim(s)) == Trim(s)
  {
    TrimOfTrimmed(Trim(s));
  }

  /** The case mapping a regular expression with the `i` flag (and no `u`
      flag) applies to ASCII letters; every other character stays as it is
      because no non-ASCII character canonicalises to an ASCII one. */
  function AsciiLower(c: char): char {
    if 'A' <= c <= 'Z' then (c as int + 32) as char else c
  }

  /** `s` with every ASCII capital replaced by its small letter. */
  function Lower(s: string): (r: string)
    ensures |r| == |s|
  {
    seq(|s|, k requires 0 <= k < |s| => AsciiLower(s[k]))
  }

  /** `pattern` occurs in `text` at position `i`, ignoring ASCII case. */
  predicate MatchesAt(text: string, pattern: string, i: nat) {
    i + |pattern| <= |text| && Lower(text[i..i + |pattern|]) == Lower(pattern)
  }

  /** `new RegExp(pattern, "i").test(text)` for a pattern made of letters
      only, computed by trying each starting position in turn. */
  predicate ContainsIgnoringCase(text: string, pattern: string)
    ensures pattern == [] ==> ContainsIgnoringCase(text, pattern)
    ensures |text| < |pattern| ==> !ContainsIgnoringCase(text, pattern)
    decreases |text|
  {
    MatchesAt(text, pattern, 0) ||
    (|text| > 0 && ContainsIgnoringCase(text[1..], pattern))
  }

  /** The search finds the pattern exactly when some position matches. */
  lemma {:induction false} ContainsIgnoringCaseIff(text: string, pattern: string)
    ensures ContainsIgnoringCase(text, pattern) <==>
      exists i :: 0 <= i <= |text| && MatchesAt(text, pattern, i)
    decreases |text|
  {
    if |text| > 0 {
      ContainsIgnoringCaseIff(text[1..], pattern);
      if ContainsIgnoringCase(text[1..], pattern) {
        var i :| 0 <= i <= |text[1..]| && MatchesAt(text[1..], pattern, i);
        assert text[1..][i..i + |pattern|] == text[i + 1..i + 1 + |pattern|];
        assert MatchesAt(text, pattern, i + 1);
      }
      if i :| 0 <= i <= |text| && MatchesAt(text, pattern, i) {
        if i > 0 {
          assert text[1..][i - 1..i - 1 + |pattern|] == text[i..i + |pattern|];
          assert MatchesAt(text[1..], pattern, i - 1);
        }
      }
    } else {
      if i :| 0 <= i <= |text| && MatchesAt(text, pattern, i) {
        assert i == 0;
      }
    }
  }

  /** A match inside a longer text is still a match: text around the
      pattern never hides it. */
  lemma ContainsIgnoringCaseWithin(before: string, middle: string, after: string, pattern: string)
    requires ContainsIgnoringCase(middle, pattern)
    ensures ContainsIgnoringCase(before + middle + after, pattern)
  {
    ContainsIgnoringCaseIff(middle, pattern);
    var i :| 0 <= i <= |middle| && MatchesAt(middle, pattern, i);
    var text := before + middle + after;
    assert text[|before| + i..|before| + i + |pattern|] == middle[i..i + |pattern|];
    assert MatchesAt(text, pattern, |before| + i);
    ContainsIgnoringCaseIff(text, pattern);
  }

  /** A text lacking one of the pattern's letters (in either case) does not
      contain the pattern. */
  lemma NotContainedWithoutLetter(text: string, pattern: string, k: nat)
    requires k < |pattern|
    requires forall i :: 0 <= i < |text| ==> AsciiLower(text[i]) != AsciiLower(pattern[k])
    ensures !ContainsIgnoringCase(text, pattern)
  {
    forall i | 0 <= i <= |text| ensures !MatchesAt(text, pattern, i) {
      if i + |pattern| <= |text| {
        assert text[i..i + |pattern|][k] == text[i + k];
        assert Lower(text[i..i + |pattern|])[k] != Lower(pattern)[k];
      }
    }
    ContainsIgnoringCaseIff(text, pattern);
  }
}
