/**
 * String helpers with the semantics of the Python `str` methods the driver
 * calls: `lower`, `upper`, `ljust`, `strip`, `split`, `join` and the `in`
 * substring test.  Case mapping is the ASCII one.
 */
module Text {

  predicate IsAsciiUpper(c: char) { 'A' <= c <= 'Z' }

  predicate IsAsciiLower(c: char) { 'a' <= c <= 'z' }

  function LowerChar(c: char): char {
    if IsAsciiUpper(c) then (c as int + 32) as char else c
  }

  function UpperChar(c: char): char {
    if IsAsciiLower(c) then (c as int - 32) as char else c
  }

  /** No upper-case letter occurs in `s`. */
  predicate NoUpper(s: string) {
    forall k | 0 <= k < |s| :: !IsAsciiUpper(s[k])
  }

  /** No lower-case letter occurs in `s`. */
  predicate NoLower(s: string) {
    forall k | 0 <= k < |s| :: !IsAsciiLower(s[k])
  }

  /** `str.lower()` */
  function Lower(s: string): (r: string)
    ensures |r| == |s| && NoUpper(r)
    ensures forall k | 0 <= k < |s| :: !IsAsciiUpper(s[k]) ==> r[k] == s[k]
    ensures forall k | 0 <= k < |s| :: UpperChar(r[k]) == UpperChar(s[k])
  {
    seq(|s|, k requires 0 <= k < |s| => LowerChar(s[k]))
  }

  /** `str.upper()` */
  function Upper(s: string): (r: string)
    ensures |r| == |s| && NoLower(r)
    ensures forall k | 0 <= k < |s| :: !IsAsciiLower(s[k]) ==> r[k] == s[k]
    ensures forall k | 0 <= k < |s| :: LowerChar(r[k]) == LowerChar(s[k])
  {
    seq(|s|, k requires 0 <= k < |s| => UpperChar(s[k]))
  }

  function Spaces(n: nat): (r: string)
    ensures |r| == n && forall k | 0 <= k < n :: r[k] == ' '
  {
    seq(n, _ => ' ')
  }

  /** `str.ljust(width)`: pad on the right with spaces up to `width`. */
  function LJust(s: string, width: nat): (r: string)
    ensures |r| == if |s| < width then width else |s|
    ensures r[..|s|] == s
    ensures forall k | |s| <= k < |r| :: r[k] == ' '
  {
    if |s| < width then s + Spaces(width - |s|) else s
  }

  /** The characters Python's `str.isspace` accepts, hence what the argument-less `str.strip` removes. */
  predicate IsSpace(c: char) {
    || '\t' <= c <= '\r' || '\U{1c}' <= c <= ' ' || c == '\U{85}' || c == '\U{a0}'
    || c == '\U{1680}' || '\U{2000}' <= c <= '\U{200a}' || c == '\U{2028}' || c == '\U{2029}'
    || c == '\U{202f}' || c == '\U{205f}' || c == '\U{3000}'
  }

  function TrimStart(s: string): (r: string)
    ensures |r| <= |s| && r == s[|s| - |r|..]
    ensures r == [] || !IsSpace(r[0])
    ensures forall k | 0 <= k < |s| - |r| :: IsSpace(s[k])
    decreases |s|
  {
    if s != [] && IsSpace(s[0]) then TrimStart(s[1..]) else s
  }

  function TrimEnd(s: string): (r: string)
    ensures |r| <= |s| && r == s[..|r|]
    ensures r == [] || !IsSpace(r[|r| - 1])
    ensures forall k | |r| <= k < |s| :: IsSpace(s[k])
    decreases |s|
  {
    if s != [] && IsSpace(s[|s| - 1]) then TrimEnd(s[..|s| - 1]) else s
  }

  /** `str.strip()`: what is left once the white space at both ends is removed. */
  function Strip(s: string): (r: string)
    ensures r == [] || (!IsSpace(r[0]) && !IsSpace(r[|r| - 1]))
    ensures var i := |s| - |TrimStart(s)|;
      && i + |r| <= |s| && r == s[i..i + |r|]
      && (forall k | 0 <= k < i :: IsSpace(s[k]))
      && (forall k | i + |r| <= k < |s| :: IsSpace(s[k]))
  {
    var t := TrimStart(s);
    var r := TrimEnd(t);
    assert r == s[|s| - |t|..][..|r|];
    SliceOfSuffix(s, |s| - |t|, |r|);
    r
  }

  lemma SliceOfSuffix(s: string, i: nat, n: nat)
    requires i + n <= |s|
    ensures s[i..][..n] == s[i..i + n]
  {
  }

  /** Number of occurrences of `c` in `s`. */
  function Count(s: string, c: char): nat
    decreases |s|
  {
    if s == [] then 0 else (if s[0] == c then 1 else 0) + Count(s[1..], c)
  }

  /** `s.split(sep)` for a one-character separator: empty pieces are kept. */
  function Split(s: string, sep: char): (r: seq<string>)
    ensures |r| == Count(s, sep) + 1
    ensures forall k | 0 <= k < |r| :: sep !in r[k]
    ensures NoUpper(s) ==> forall k | 0 <= k < |r| :: NoUpper(r[k])
    decreases |s|
  {
    if s == [] then [[]]
    else if s[0] == sep then [[]] + Split(s[1..], sep)
    else
      var t := Split(s[1..], sep);
      [[s[0]] + t[0]] + t[1..]
  }

  /** `sep.join(parts)` */
  function Join(parts: seq<string>, sep: char): string
    decreases |parts|
  {
    if parts == [] then []
    else if |parts| == 1 then parts[0]
    else parts[0] + [sep] + Join(parts[1..], sep)
  }

  lemma {:induction false} JoinConsHead(c: char, first: string, rest: seq<string>, sep: char)
    ensures Join([[c] + first] + rest, sep) == [c] + Join([first] + rest, sep)
  {
    if rest != [] {
      assert ([[c] + first] + rest)[1..] == rest;
      assert ([first] + rest)[1..] == rest;
    }
  }

  /** Splitting and joining with the same separator gives the string back. */
  lemma {:induction false} JoinSplit(s: string, sep: char)
    ensures Join(Split(s, sep), sep) == s
    decreases |s|
  {
    if s == [] {
    } else if s[0] == sep {
      var t := Split(s[1..], sep);
      JoinSplit(s[1..], sep);
      assert ([[]] + t)[1..] == t;
      assert s == [sep] + s[1..];
    } else {
      var t := Split(s[1..], sep);
      JoinSplit(s[1..], sep);
      JoinConsHead(s[0], t[0], t[1..], sep);
      assert [t[0]] + t[1..] == t;
      assert s == [s[0]] + s[1..];
    }
  }

  /** Lower-casing leaves every character that is not an upper-case letter where it was. */
  lemma {:induction false} CountLower(s: string, c: char)
    requires !IsAsciiUpper(c) && !IsAsciiLower(c)
    ensures Count(Lower(s), c) == Count(s, c)
    decreases |s|
  {
    if s != [] {
      CountLower(s[1..], c);
      assert Lower(s)[1..] == Lower(s[1..]);
    }
  }

  /** Python's `sub in s`. */
  predicate Contains(s: string, sub: string)
    decreases |s|
  {
    (|sub| <= |s| && s[..|sub|] == sub) || (s != [] && Contains(s[1..], sub))
  }
}
