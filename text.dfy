/** The two string normalisations the Customer entity applies: trimming a
    name and lower-casing an email. */
module Text {

  /** The characters Java's `String.trim()` removes: every code point up to
      and including the space. */
  predicate IsWhitespace(c: char) {
    c <= ' '
  }

  /** True when `s` has no whitespace at either end, as `trim()` leaves it. */
  predicate IsTrimmed(s: string) {
    s == [] || (!IsWhitespace(s[0]) && !IsWhitespace(s[|s| - 1]))
  }

  predicate AllWhitespace(s: string) {
    forall i :: 0 <= i < |s| ==> IsWhitespace(s[i])
  }

  /** Drops the leading whitespace: the result is a suffix of `s`, everything
      before it is whitespace, and it does not start with whitespace. */
  function TrimStart(s: string): (r: string)
    ensures |r| <= |s| && r == s[|s| - |r|..]
    ensures AllWhitespace(s[..|s| - |r|])
    ensures r == [] || !IsWhitespace(r[0])
    decreases |s|
  {
    if s != [] && IsWhitespace(s[0]) then TrimStart(s[1..]) else s
  }

  /** Drops the trailing whitespace: the result is a prefix of `s`, everything
      after it is whitespace, and it does not end with whitespace. */
  function TrimEnd(s: string): (r: string)
    ensures |r| <= |s| && r == s[..|r|]
    ensures AllWhitespace(s[|r|..])
    ensures r == [] || !IsWhitespace(r[|r| - 1])
    decreases |s|
  {
    if s != [] && IsWhitespace(s[|s| - 1]) then TrimEnd(s[..|s| - 1]) else s
  }

  /** `String.trim()`. */
  function Trim(s: string): (r: string)
    ensures IsTrimmed(r)
    ensures r == [] <==> AllWhitespace(s)
  {
    var t := TrimStart(s);
    var r := TrimEnd(t);
    assert r != [] ==> r[0] == t[0];
    r
  }

  /** A string that `trim()` leaves alone stays unchanged. */
  lemma TrimOfTrimmed(s: string)
    requires IsTrimmed(s)
    ensures Trim(s) == s
  {
  }

  lemma TrimStartSplits(s: string) returns (p: string)
    ensures s == p + TrimStart(s) && AllWhitespace(p)
  {
    var k := |s| - |TrimStart(s)|;
    p := s[..k];
    assert s == p + s[k..];
  }

  lemma TrimEndSplits(s: string) returns (q: string)
    ensures s == TrimEnd(s) + q && AllWhitespace(q)
  {
    var k := |TrimEnd(s)|;
    q := s[k..];
    assert s == s[..k] + q;
  }

  /** Regrouping a concatenation; a proof step for `TrimSplits`. */
  lemma Associative(a: string, b: string, c: string)
    ensures a + b + c == a + (b + c)
  {
  }

  /** What `trim()` keeps: `s` is the result with only whitespace around it. */
  lemma TrimSplits(s: string) returns (p: string, q: string)
    ensures s == p + Trim(s) + q
    ensures AllWhitespace(p) && AllWhitespace(q)
  {
    var t := TrimStart(s);
    p := TrimStartSplits(s);
    q := TrimEndSplits(t);
    Associative(p, TrimEnd(t), q);
  }

  lemma {:induction false} TrimStartPadded(p: string, s: string)
    requires AllWhitespace(p)
    requires s == [] || !IsWhitespace(s[0])
    ensures TrimStart(p + s) == s
    decreases |p|
  {
    if p == [] {
      assert p + s == s;
    } else {
      assert (p + s)[0] == p[0];
      assert (p + s)[1..] == p[1..] + s;
      TrimStartPadded(p[1..], s);
    }
  }

  lemma {:induction false} TrimEndPadded(s: string, q: string)
    requires AllWhitespace(q)
    requires s == [] || !IsWhitespace(s[|s| - 1])
    ensures TrimEnd(s + q) == s
    decreases |q|
  {
    if q == [] {
      assert s + q == s;
    } else {
      var t := s + q;
      assert t[|t| - 1] == q[|q| - 1];
      assert t[..|t| - 1] == s + q[..|q| - 1];
      TrimEndPadded(s, q[..|q| - 1]);
    }
  }

  /** Conversely, whitespace around a trimmed, non-empty string is exactly
      what `trim()` removes. */
  lemma TrimPadded(p: string, s: string, q: string)
    requires AllWhitespace(p) && AllWhitespace(q)
    requires s != [] && IsTrimmed(s)
    ensures Trim(p + s + q) == s
  {
    assert p + s + q == p + (s + q);
    TrimStartPadded(p, s + q);
    TrimEndPadded(s, q);
  }

  /** Trimming twice is trimming once. */
  lemma TrimIdempotent(s: string)
    ensures Trim(Trim(s)) == Trim(s)
  {
    TrimOfTrimmed(Trim(s));
  }

  predicate IsUpper(c: char) {
    'A' <= c <= 'Z'
  }

  /** ASCII `Character.toLowerCase`. */
  function LowerChar(c: char): (r: char)
    ensures !IsUpper(r)
    ensures IsUpper(c) ==> r as int == c as int + 32
    ensures !IsUpper(c) ==> r == c
  {
    if IsUpper(c) then (c as int + 32) as char else c
  }

  predicate IsLowerCase(s: string) {
    forall i :: 0 <= i < |s| ==> !IsUpper(s[i])
  }

  /** `String.toLowerCase()` on ASCII letters, character by character. */
  function ToLower(s: string): (r: string)
    ensures |r| == |s|
    ensures forall i :: 0 <= i < |s| ==> r[i] == LowerChar(s[i])
    decreases |s|
  {
    if s == [] then [] else [LowerChar(s[0])] + ToLower(s[1..])
  }

  /** Lower-casing is the identity exactly on strings without upper-case
      letters, so it is idempotent. */
  lemma ToLowerFixed(s: string)
    ensures ToLower(s) == s <==> IsLowerCase(s)
    ensures IsLowerCase(ToLower(s))
    ensures ToLower(ToLower(s)) == ToLower(s)
  {
    if IsLowerCase(s) {
      assert forall i :: 0 <= i < |s| ==> ToLower(s)[i] == s[i];
    }
    var t := ToLower(s);
    assert forall i :: 0 <= i < |t| ==> ToLower(t)[i] == t[i];
  }
}
