/** The Python `str` operations the core relies on: `strip`, `split`, `join`,
    `replace` of one character by nothing, `lower` and the decimal rendering of integers. */
module PyStrings {

  /** The characters for which Python's `str.isspace()` holds; `str.strip()` with no
      argument removes exactly these. */
  const Whitespace: set<char> := {
    '\U{9}', '\U{A}', '\U{B}', '\U{C}', '\U{D}', '\U{1C}', '\U{1D}', '\U{1E}',
    '\U{1F}', '\U{20}', '\U{85}', '\U{A0}', '\U{1680}', '\U{2000}', '\U{2001}', '\U{2002}',
    '\U{2003}', '\U{2004}', '\U{2005}', '\U{2006}', '\U{2007}', '\U{2008}', '\U{2009}', '\U{200A}',
    '\U{2028}', '\U{2029}', '\U{202F}', '\U{205F}', '\U{3000}'
  }

  /** The number of leading characters of `s` that belong to `chars`. */
  function LeadingIn(s: string, chars: set<char>): (n: nat)
    ensures n <= |s|
    ensures forall k :: 0 <= k < n ==> s[k] in chars
    ensures n < |s| ==> s[n] !in chars
  {
    if |s| > 0 && s[0] in chars then 1 + LeadingIn(s[1..], chars) else 0
  }

  /** The number of trailing characters of `s` that belong to `chars`. */
  function TrailingIn(s: string, chars: set<char>): (n: nat)
    ensures n <= |s|
    ensures forall k :: |s| - n <= k < |s| ==> s[k] in chars
    ensures n < |s| ==> s[|s| - 1 - n] !in chars
  {
    if |s| > 0 && s[|s| - 1] in chars then 1 + TrailingIn(s[..|s| - 1], chars) else 0
  }

  /** `s.strip(chars)`: the slice `s[lo..hi]` that remains once every leading and every
      trailing character in `chars` is removed. */
  function StripChars(s: string, chars: set<char>): string
  {
    var t := s[LeadingIn(s, chars)..];
    t[..|t| - TrailingIn(t, chars)]
  }

  /** `s.strip()` */
  function Strip(s: string): string
  {
    StripChars(s, Whitespace)
  }

  /** The stripped string is a slice `s[lo..hi]` of its input, everything cut off
      belongs to `chars`, and it neither starts nor ends with a character of `chars`. */
  lemma StripCharsIsSlice(s: string, chars: set<char>)
    ensures exists lo, hi :: (0 <= lo <= hi <= |s| && StripChars(s, chars) == s[lo..hi]
      && (forall k :: 0 <= k < lo ==> s[k] in chars)
      && (forall k :: hi <= k < |s| ==> s[k] in chars))
    ensures var r := StripChars(s, chars); |r| > 0 ==> r[0] !in chars && r[|r| - 1] !in chars
  {
    var lo := LeadingIn(s, chars);
    var t := s[lo..];
    var hi := lo + |t| - TrailingIn(t, chars);
    assert StripChars(s, chars) == s[lo..hi];
    assert forall k :: hi <= k < |s| ==> s[k] == t[k - lo];
  }

  /** Stripping twice with the same characters is stripping once. */
  lemma StripCharsIdempotent(s: string, chars: set<char>)
    ensures StripChars(StripChars(s, chars), chars) == StripChars(s, chars)
  {
    var r := StripChars(s, chars);
    StripCharsIsSlice(s, chars);
    assert LeadingIn(r, chars) == 0;
    assert TrailingIn(r, chars) == 0;
  }

  /** A string that has none of `chars` at either end is its own strip. */
  lemma StripCharsOfClean(s: string, chars: set<char>)
    requires |s| > 0 ==> s[0] !in chars && s[|s| - 1] !in chars
    ensures StripChars(s, chars) == s
  {
  }

  /** A printable ASCII character other than the space. */
  predicate IsGraphic(c: char) { '!' <= c <= '~' }

  /** No printable ASCII character is whitespace. */
  lemma GraphicIsNotWhitespace(c: char)
    requires IsGraphic(c)
    ensures c !in Whitespace
  {
  }

  /** A string that starts and ends with a printable character is its own strip. */
  lemma StripOfGraphicEnds(s: string)
    requires |s| > 0 ==> IsGraphic(s[0]) && IsGraphic(s[|s| - 1])
    ensures Strip(s) == s
  {
    if |s| > 0 {
      GraphicIsNotWhitespace(s[0]);
      GraphicIsNotWhitespace(s[|s| - 1]);
    }
    StripCharsOfClean(s, Whitespace);
  }

  /** `s.split(sep)` for a one-character separator: the pieces between separators,
      always at least one, empty pieces included. */
  function Split(s: string, sep: char): (pieces: seq<string>)
    ensures |pieces| >= 1
    ensures forall i :: 0 <= i < |pieces| ==> sep !in pieces[i]
  {
    if sep !in s then [s]
    else
      var i := IndexOf(s, sep);
      [s[..i]] + Split(s[i + 1..], sep)
  }

  /** The position of the first occurrence of `c` in `s`. */
  function IndexOf(s: string, c: char): (i: nat)
    requires c in s
    ensures i < |s| && s[i] == c && c !in s[..i]
  {
    if s[0] == c then 0 else 1 + IndexOf(s[1..], c)
  }

  /** `sep.join(parts)` */
  function Join(sep: string, parts: seq<string>): string
  {
    if |parts| == 0 then ""
    else if |parts| == 1 then parts[0]
    else parts[0] + sep + Join(sep, parts[1..])
  }

  /** Joining the pieces of a split with the separator gives back the string. */
  lemma {:induction false} JoinSplit(s: string, sep: char)
    ensures Join([sep], Split(s, sep)) == s
    decreases |s|
  {
    if sep in s {
      var i := IndexOf(s, sep);
      var rest := s[i + 1..];
      JoinSplit(rest, sep);
      var parts := Split(s, sep);
      assert parts == [s[..i]] + Split(rest, sep);
      assert parts[0] == s[..i] && parts[1..] == Split(rest, sep);
      assert Join([sep], parts) == s[..i] + [sep] + Join([sep], parts[1..]);
      assert s == s[..i] + [sep] + rest;
    }
  }

  /** `s.replace(c, "")`: every occurrence of `c` removed. */
  function Remove(s: string, c: char): (r: string)
    ensures c !in r
    ensures |r| <= |s|
  {
    if |s| == 0 then ""
    else if s[0] == c then Remove(s[1..], c)
    else [s[0]] + Remove(s[1..], c)
  }

  /** `s.lower()` restricted to the letters A to Z. */
  function Lower(s: string): (r: string)
    ensures |r| == |s|
  {
    if |s| == 0 then ""
    else [if 'A' <= s[0] <= 'Z' then (s[0] as int + 32) as char else s[0]] + Lower(s[1..])
  }

  predicate IsDigit(c: char) { '0' <= c <= '9' }

  predicate AllDigits(s: string) { forall k :: 0 <= k < |s| ==> IsDigit(s[k]) }

  /** The value of a string of decimal digits, most significant first. */
  function DigitsValue(s: string): (n: nat)
    requires AllDigits(s)
  {
    if |s| == 0 then 0 else 10 * DigitsValue(s[..|s| - 1]) + (s[|s| - 1] as int - '0' as int)
  }

  /** `str(n)` for a natural number: decimal digits, no leading zero. */
  function NatToString(n: nat): (s: string)
    ensures |s| >= 1 && AllDigits(s)
    ensures |s| > 1 ==> s[0] != '0'
  {
    if n < 10 then ['0' + n as char]
    else NatToString(n / 10) + ['0' + (n % 10) as char]
  }

  /** `str(i)` for an integer. */
  function IntToString(i: int): string
  {
    if i < 0 then "-" + NatToString(-i) else NatToString(i)
  }

  /** Reading back the decimal rendering of a natural number gives the number. */
  lemma {:induction false} DigitsValueOfNatToString(n: nat)
    ensures DigitsValue(NatToString(n)) == n
  {
    if n >= 10 {
      DigitsValueOfNatToString(n / 10);
      var s := NatToString(n);
      assert s[..|s| - 1] == NatToString(n / 10);
    }
  }

  /** `sub` occurs in `s` as a contiguous piece (Python's `sub in s`). */
  predicate IsInfix(sub: string, s: string)
  {
    exists i, j :: 0 <= i <= j <= |s| && s[i..j] == sub
  }

  /** A piece of either half is a piece of the whole. */
  lemma InfixOfConcat(sub: string, a: string, b: string)
    requires IsInfix(sub, a) || IsInfix(sub, b)
    ensures IsInfix(sub, a + b)
  {
    if IsInfix(sub, a) {
      var i, j :| 0 <= i <= j <= |a| && a[i..j] == sub;
      assert (a + b)[i..j] == sub;
    } else {
      var i, j :| 0 <= i <= j <= |b| && b[i..j] == sub;
      assert (a + b)[|a| + i..|a| + j] == sub;
    }
  }

  /** Every part occurs in the joined string. */
  lemma {:induction false} JoinHasParts(sep: string, parts: seq<string>)
    ensures forall k :: 0 <= k < |parts| ==> IsInfix(parts[k], Join(sep, parts))
  {
    if |parts| == 1 {
      assert parts[0][0..|parts[0]|] == parts[0];
    } else if |parts| > 1 {
      var rest := Join(sep, parts[1..]);
      JoinHasParts(sep, parts[1..]);
      forall k | 0 <= k < |parts| ensures IsInfix(parts[k], Join(sep, parts)) {
        if k == 0 {
          assert parts[0][0..|parts[0]|] == parts[0];
          InfixOfConcat(parts[0], parts[0], sep + rest);
          assert parts[0] + (sep + rest) == Join(sep, parts);
        } else {
          assert parts[1..][k - 1] == parts[k];
          InfixOfConcat(parts[k], parts[0] + sep, rest);
        }
      }
    }
  }

  /** A piece of a piece is a piece. */
  lemma InfixTransitive(a: string, b: string, c: string)
    requires IsInfix(a, b) && IsInfix(b, c)
    ensures IsInfix(a, c)
  {
    var i, j :| 0 <= i <= j <= |b| && b[i..j] == a;
    var k, l :| 0 <= k <= l <= |c| && c[k..l] == b;
    forall m | 0 <= m < j - i ensures c[k + i..k + j][m] == a[m] {
      assert a[m] == b[i + m] == c[k + i + m];
    }
    assert c[k + i..k + j] == a;
  }

  /** The stripped string neither starts nor ends with a character of `chars`. */
  lemma StripCharsEnds(s: string, chars: set<char>)
    ensures var r := StripChars(s, chars); |r| > 0 ==> r[0] !in chars && r[|r| - 1] !in chars
  {
    StripCharsIsSlice(s, chars);
  }

  /** Stripping leaves a contiguous piece of the input. */
  lemma StripCharsIsInfix(s: string, chars: set<char>)
    ensures IsInfix(StripChars(s, chars), s)
  {
    StripCharsIsSlice(s, chars);
  }
}
