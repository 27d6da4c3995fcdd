/** The JavaScript string operations the application relies on: `trim`,
    `slice(0, n)`, `toLowerCase` and `startsWith`, over `seq<char>`. */
module Text {

  /** A code point that ECMAScript's `String.prototype.trim` removes: the
      WhiteSpace characters (TAB, VT, FF, ZWNBSP and every space separator)
      and the LineTerminator characters (LF, CR, LS, PS). */
  predicate IsWhitespace(c: char) {
    || c == '\t' || c == '\n' || c == '\U{000B}' || c == '\U{000C}' || c == '\r'
    || c == ' ' || c == '\U{00A0}' || c == '\U{1680}' || '\U{2000}' <= c <= '\U{200A}'
    || c == '\U{2028}' || c == '\U{2029}' || c == '\U{202F}' || c == '\U{205F}'
    || c == '\U{3000}' || c == '\U{FEFF}'
  }

  /** Empty, or made of whitespace only. */
  predicate IsBlank(s: string) {
    forall i :: 0 <= i < |s| ==> IsWhitespace(s[i])
  }

  /** Neither starts nor ends with whitespace. */
  predicate IsTrimmed(s: string) {
    s != [] ==> !IsWhitespace(s[0]) && !IsWhitespace(s[|s| - 1])
  }

  /** Skips the whitespace run that starts at `from`: the result is the
      index of the first non-whitespace character at or after `from`, or
      `|s|` when there is none. */
  function SkipBlank(s: string, from: nat): (n: nat)
    requires from <= |s|
    ensures from <= n <= |s|
    ensures forall k :: from <= k < n ==> IsWhitespace(s[k])
    ensures n < |s| ==> !IsWhitespace(s[n])
    decreases |s| - from
  {
    if from < |s| && IsWhitespace(s[from]) then SkipBlank(s, from + 1) else from
  }

  /** Skips, backwards, the whitespace run that ends just before `to`: the
      result is where that run starts. */
  function SkipBlankBack(s: string, to: nat): (m: nat)
    requires to <= |s|
    ensures m <= to
    ensures forall k :: m <= k < to ==> IsWhitespace(s[k])
    ensures 0 < m ==> !IsWhitespace(s[m - 1])
  {
    if 0 < to && IsWhitespace(s[to - 1]) then SkipBlankBack(s, to - 1) else to
  }

  /** `String.prototype.trim`: the result has no whitespace at either end,
      and it is empty exactly when the input is blank. */
  function Trim(s: string): (r: string)
    ensures IsTrimmed(r)
    ensures r == [] <==> IsBlank(s)
    ensures |r| <= |s|
  {
    var i := SkipBlank(s, 0);
    var j := SkipBlankBack(s, |s|);
    if i == |s| then []
    else
      assert i < j;
      s[i..j]
  }

  /** `trim` keeps a slice of its input and drops only blank text around it. */
  lemma TrimIsInnerSlice(s: string) returns (i: nat)
    ensures i + |Trim(s)| <= |s| && Trim(s) == s[i..i + |Trim(s)|]
    ensures IsBlank(s[..i]) && IsBlank(s[i + |Trim(s)|..])
  {
    i := SkipBlank(s, 0);
    var j := SkipBlankBack(s, |s|);
    if i == |s| {
      assert Trim(s) == [];
      assert forall k :: 0 <= k < i ==> s[..i][k] == s[k];
    } else {
      assert Trim(s) == s[i..j];
      assert forall k :: 0 <= k < i ==> s[..i][k] == s[k];
      assert forall k :: 0 <= k < |s| - j ==> s[j..][k] == s[j + k];
    }
  }

  /** The slice `trim` keeps is the only one with blank surroundings and no
      whitespace at its ends: `trim` is determined by that description. */
  lemma TrimUnique(s: string, i: nat, j: nat)
    requires i <= j <= |s|
    requires IsBlank(s[..i]) && IsBlank(s[j..]) && IsTrimmed(s[i..j])
    ensures Trim(s) == s[i..j]
  {
    forall k | 0 <= k < i ensures IsWhitespace(s[k]) {
      assert s[k] == s[..i][k];
    }
    forall k | j <= k < |s| ensures IsWhitespace(s[k]) {
      assert s[k] == s[j..][k - j];
    }
    var n := SkipBlank(s, 0);
    var m := SkipBlankBack(s, |s|);
    if i < j {
      assert s[i] == s[i..j][0] && s[j - 1] == s[i..j][j - 1 - i];
      assert n == i && m == j;
    }
  }

  /** `trim` leaves a string that is already trimmed as it is. */
  lemma TrimOfTrimmed(s: string)
    requires IsTrimmed(s)
    ensures Trim(s) == s
  {
    assert s[..0] == [] && s[|s|..] == [] && s[0..|s|] == s;
    TrimUnique(s, 0, |s|);
  }

  /** `trim` is idempotent. */
  lemma TrimIdempotent(s: string)
    ensures Trim(Trim(s)) == Trim(s)
  {
    TrimOfTrimmed(Trim(s));
  }

  /** `String.prototype.slice(0, n)` for a non-negative `n`: the first
      `min(n, |s|)` characters. */
  function Take(s: string, n: nat): (r: string)
    ensures |r| == if |s| < n then |s| else n
    ensures r == s[..|r|]
  {
    if |s| < n then s else s[..n]
  }

  /** `toLowerCase` on one character; only A-Z are mapped. */
  function ToLowerChar(c: char): (r: char)
    ensures 'A' <= c <= 'Z' ==> 'a' <= r <= 'z' && r as int == c as int + 32
    ensures !('A' <= c <= 'Z') ==> r == c
  {
    if 'A' <= c <= 'Z' then (c as int + 32) as char else c
  }

  /** `String.prototype.toLowerCase`, character by character. */
  function ToLowerCase(s: string): (r: string)
    ensures |r| == |s|
    ensures forall i :: 0 <= i < |s| ==> r[i] == ToLowerChar(s[i])
  {
    seq(|s|, i requires 0 <= i < |s| => ToLowerChar(s[i]))
  }

  /** `String.prototype.startsWith`. */
  predicate StartsWith(s: string, prefix: string) {
    |prefix| <= |s| && s[..|prefix|] == prefix
  }
}
