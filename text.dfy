/**
 * Character classes and string helpers shared by the validators, the
 * inventory search and the registration page: the ASCII classes that the
 * regular expressions of the application use, the ECMAScript whitespace set
 * (what `\s` matches and what `String.prototype.trim` removes), trimming,
 * deleting every occurrence of a class of characters, ASCII lower-casing and
 * substring search.
 */
module Text {

  datatype Option<+T> = None | Some(value: T)

  predicate IsAsciiUpper(c: char) { 'A' <= c <= 'Z' }
  predicate IsAsciiLower(c: char) { 'a' <= c <= 'z' }
  predicate IsAsciiDigit(c: char) { '0' <= c <= '9' }
  predicate IsAsciiLetter(c: char) { IsAsciiUpper(c) || IsAsciiLower(c) }

  /**
   * Every character is below U+0080. On such text a JavaScript `.length`
   * (UTF-16 units) equals Python's `len` (code points), and Python's Unicode
   * `\d` matches exactly the ASCII digits.
   */
  predicate IsAscii(s: string) { forall i | 0 <= i < |s| :: s[i] < '\U{80}' }

  /** The regular-expression class `[a-zA-Z0-9_]`. */
  predicate IsWordChar(c: char) { IsAsciiLetter(c) || IsAsciiDigit(c) || c == '_' }

  /**
   * ECMAScript WhiteSpace and LineTerminator code points: exactly what `\s`
   * matches in a JavaScript regular expression and what `trim()` strips.
   */
  predicate IsJsSpace(c: char)
  {
    || c == '\t' || c == '\n' || c == '\U{B}' || c == '\U{C}' || c == '\r'
    || c == ' ' || c == '\U{A0}' || c == '\U{1680}'
    || ('\U{2000}' <= c <= '\U{200A}')
    || c == '\U{2028}' || c == '\U{2029}' || c == '\U{202F}' || c == '\U{205F}'
    || c == '\U{3000}' || c == '\U{FEFF}'
  }

  /** No character of `s` is ECMAScript whitespace. */
  predicate NoJsSpace(s: string)
  {
    forall i | 0 <= i < |s| :: !IsJsSpace(s[i])
  }

  /** Number of leading whitespace characters. */
  function LeadingSpaces(s: string): (n: nat)
    ensures n <= |s|
    ensures forall i | 0 <= i < n :: IsJsSpace(s[i])
    ensures n == |s| || !IsJsSpace(s[n])
  {
    if s != [] && IsJsSpace(s[0]) then 1 + LeadingSpaces(s[1..]) else 0
  }

  /** Number of trailing whitespace characters. */
  function TrailingSpaces(s: string): (n: nat)
    ensures n <= |s|
    ensures forall i | |s| - n <= i < |s| :: IsJsSpace(s[i])
    ensures n == |s| || !IsJsSpace(s[|s| - 1 - n])
  {
    if s != [] && IsJsSpace(s[|s| - 1]) then 1 + TrailingSpaces(s[..|s| - 1]) else 0
  }

  /**
   * `String.prototype.trim`: the longest middle slice of `s` that neither
   * starts nor ends with whitespace; everything cut away is whitespace.
   */
  function Trim(s: string): (r: string)
    ensures LeadingSpaces(s) + |r| <= |s|
    ensures r == s[LeadingSpaces(s)..LeadingSpaces(s) + |r|]
    ensures r == [] || (!IsJsSpace(r[0]) && !IsJsSpace(r[|r| - 1]))
    ensures forall i | 0 <= i < LeadingSpaces(s) :: IsJsSpace(s[i])
    ensures forall i | LeadingSpaces(s) + |r| <= i < |s| :: IsJsSpace(s[i])
  {
    var tail := s[LeadingSpaces(s)..];
    tail[..|tail| - TrailingSpaces(tail)]
  }

  /** A string without whitespace at either end is its own trim. */
  lemma TrimKeepsUnpadded(s: string)
    requires s == [] || (!IsJsSpace(s[0]) && !IsJsSpace(s[|s| - 1]))
    ensures Trim(s) == s
  {
  }

  /** Trimming is idempotent. */
  lemma TrimIdempotent(s: string)
    ensures Trim(Trim(s)) == Trim(s)
  {
    TrimKeepsUnpadded(Trim(s));
  }

  /**
   * `s.replace(/[...]/g, '')`: deletes every character that `drop` selects
   * and keeps the others in their order.
   */
  function RemoveWhere(s: string, drop: char -> bool): (r: string)
    ensures |r| <= |s|
    ensures forall i | 0 <= i < |r| :: !drop(r[i])
  {
    if s == [] then []
    else
      var rest := RemoveWhere(s[1..], drop);
      if drop(s[0]) then rest else [s[0]] + rest
  }

  /** Every kept character occurs as often as before; every dropped one is gone. */
  lemma {:induction false} RemoveWhereCounts(s: string, drop: char -> bool)
    ensures forall c :: !drop(c) ==> multiset(RemoveWhere(s, drop))[c] == multiset(s)[c]
    ensures forall c :: drop(c) ==> multiset(RemoveWhere(s, drop))[c] == 0
  {
    if s != [] {
      RemoveWhereCounts(s[1..], drop);
      assert s == [s[0]] + s[1..];
    }
  }

  /** Deleting characters from a string that has none of them changes nothing. */
  lemma {:induction false} RemoveWhereNone(s: string, drop: char -> bool)
    requires forall i | 0 <= i < |s| :: !drop(s[i])
    ensures RemoveWhere(s, drop) == s
  {
    if s != [] {
      RemoveWhereNone(s[1..], drop);
    }
  }

  /** Deleting characters distributes over concatenation. */
  lemma {:induction false} RemoveWhereAppend(a: string, b: string, drop: char -> bool)
    ensures RemoveWhere(a + b, drop) == RemoveWhere(a, drop) + RemoveWhere(b, drop)
  {
    if a != [] {
      assert (a + b)[1..] == a[1..] + b;
      RemoveWhereAppend(a[1..], b, drop);
    } else {
      assert a + b == b;
    }
  }

  /** ASCII `toLowerCase` of one character. */
  function LowerChar(c: char): char
  {
    if IsAsciiUpper(c) then (c as int + 32) as char else c
  }

  /** `toLowerCase`, character by character. */
  function ToLower(s: string): (r: string)
    ensures |r| == |s|
    ensures forall i | 0 <= i < |s| :: r[i] == LowerChar(s[i])
  {
    seq(|s|, i requires 0 <= i < |s| => LowerChar(s[i]))
  }

  /** Lower-casing twice is lower-casing once. */
  lemma ToLowerIdempotent(s: string)
    ensures ToLower(ToLower(s)) == ToLower(s)
  {
  }

  /** `t` occurs in `s` starting at index `i`. */
  predicate OccursAt(s: string, t: string, i: int)
  {
    0 <= i <= |s| - |t| && s[i..i + |t|] == t
  }

  /** `s.includes(t)`: `t` occurs in `s` as a contiguous slice. */
  predicate Contains(s: string, t: string)
  {
    exists i | 0 <= i <= |s| - |t| :: OccursAt(s, t, i)
  }

  /** Every string includes the empty string. */
  lemma ContainsEmpty(s: string)
    ensures Contains(s, "")
  {
    assert OccursAt(s, "", 0);
  }

  /** Lower-casing both sides keeps an occurrence an occurrence. */
  lemma ContainsLower(s: string, t: string)
    requires Contains(s, t)
    ensures Contains(ToLower(s), ToLower(t))
  {
    var i :| 0 <= i <= |s| - |t| && OccursAt(s, t, i);
    forall k | 0 <= k < |t|
      ensures ToLower(s)[i + k] == ToLower(t)[k]
    {
      assert s[i + k] == s[i..i + |t|][k];
    }
    assert ToLower(s)[i..i + |t|] == ToLower(t);
    assert OccursAt(ToLower(s), ToLower(t), i);
  }
}
