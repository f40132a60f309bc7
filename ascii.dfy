/** The two JavaScript string operations the query validator applies to the
    learner's input, `String.prototype.trim` and `String.prototype.toUpperCase`,
    restricted to ASCII. */
module Ascii {

  /** The ASCII characters that `trim` strips: tab, line feed, vertical tab,
      form feed, carriage return and space. */
  predicate IsWhitespace(c: char) {
    c == '\t' || c == '\n' || c == '\U{B}' || c == '\U{C}' || c == '\r' || c == ' '
  }

  predicate IsLower(c: char) {
    'a' <= c <= 'z'
  }

  /** `toUpperCase` on one character: a-z become A-Z, everything else is kept. */
  function UpperChar(c: char): char {
    if IsLower(c) then (c as int - 32) as char else c
  }

  predicate AllWhitespace(s: string) {
    forall i :: 0 <= i < |s| ==> IsWhitespace(s[i])
  }

  predicate NoLower(s: string) {
    forall i :: 0 <= i < |s| ==> !IsLower(s[i])
  }

  /** A string that `trim` leaves as it is: empty, or starting and ending with
      a character that is not whitespace. */
  predicate IsTrimmed(s: string) {
    s == [] || (!IsWhitespace(s[0]) && !IsWhitespace(s[|s| - 1]))
  }

  /** `toUpperCase`, applied character by character. */
  function Upper(s: string): string {
    seq(|s|, i requires 0 <= i < |s| => UpperChar(s[i]))
  }

  /** Number of whitespace characters at the front of `s`. */
  function LeadingWhitespace(s: string): (n: nat)
    ensures n <= |s|
    ensures forall i :: 0 <= i < n ==> IsWhitespace(s[i])
    ensures n < |s| ==> !IsWhitespace(s[n])
  {
    if s != [] && IsWhitespace(s[0]) then 1 + LeadingWhitespace(s[1..]) else 0
  }

  /** Number of whitespace characters at the back of `s`. */
  function TrailingWhitespace(s: string): (n: nat)
    ensures n <= |s|
    ensures forall i :: |s| - n <= i < |s| ==> IsWhitespace(s[i])
    ensures n < |s| ==> !IsWhitespace(s[|s| - 1 - n])
  {
    if s != [] && IsWhitespace(s[|s| - 1]) then 1 + TrailingWhitespace(s[..|s| - 1]) else 0
  }

  /** `trim`: the result is trimmed, and `s` is the result with a run of
      whitespace before it and a run of whitespace after it. */
  function Trim(s: string): (r: string)
    ensures IsTrimmed(r)
    ensures var a := LeadingWhitespace(s);
      a + |r| <= |s| && s[a..a + |r|] == r &&
      (forall i :: 0 <= i < a ==> IsWhitespace(s[i])) &&
      (forall i :: a + |r| <= i < |s| ==> IsWhitespace(s[i]))
  {
    var rest := s[LeadingWhitespace(s)..];
    rest[..|rest| - TrailingWhitespace(rest)]
  }

  /** `query.trim().toUpperCase()`. */
  function Normalize(s: string): string {
    Upper(Trim(s))
  }

  lemma UpperConcat(x: string, y: string)
    ensures Upper(x + y) == Upper(x) + Upper(y)
  {
    assert forall i :: 0 <= i < |x + y| ==> Upper(x + y)[i] == (Upper(x) + Upper(y))[i];
  }

  /** Upper case has no lower-case letters left, so a second `toUpperCase` changes nothing. */
  lemma UpperIdempotent(s: string)
    ensures NoLower(Upper(s))
    ensures Upper(Upper(s)) == Upper(s)
  {
  }

  /** A string without lower-case letters is its own upper case. */
  lemma UpperOfNoLower(s: string)
    requires NoLower(s)
    ensures Upper(s) == s
  {
  }

  /** `toUpperCase` maps whitespace to whitespace and nothing else to whitespace. */
  lemma UpperKeepsWhitespace(s: string)
    ensures AllWhitespace(Upper(s)) <==> AllWhitespace(s)
    ensures IsTrimmed(Upper(s)) <==> IsTrimmed(s)
  {
    forall i | 0 <= i < |s| ensures IsWhitespace(Upper(s)[i]) <==> IsWhitespace(s[i]) {
    }
  }

  lemma {:induction false} LeadingOfPadded(p: string, u: string)
    requires AllWhitespace(p)
    ensures LeadingWhitespace(p + u) == |p| + LeadingWhitespace(u)
  {
    if p != [] {
      assert (p + u)[1..] == p[1..] + u;
      LeadingOfPadded(p[1..], u);
    } else {
      assert p + u == u;
    }
  }

  lemma {:induction false} TrailingOfPadded(u: string, q: string)
    requires AllWhitespace(q)
    ensures TrailingWhitespace(u + q) == TrailingWhitespace(u) + |q|
  {
    if q != [] {
      assert (u + q)[..|u + q| - 1] == u + q[..|q| - 1];
      TrailingOfPadded(u, q[..|q| - 1]);
    } else {
      assert u + q == u;
    }
  }

  /** The decomposition into leading whitespace, trimmed core and trailing
      whitespace is unique: `trim` returns the core. */
  lemma TrimOfPadded(p: string, t: string, q: string)
    requires AllWhitespace(p) && AllWhitespace(q) && IsTrimmed(t)
    ensures Trim(p + t + q) == t
  {
    var s := p + t + q;
    if t == [] {
      assert s == p + q;
      LeadingOfPadded(p, q);
      assert LeadingWhitespace(q) == |q|;
    } else {
      assert s == p + (t + q);
      LeadingOfPadded(p, t + q);
      assert LeadingWhitespace(t + q) == 0;
      var rest := s[|p|..];
      assert rest == t + q;
      TrailingOfPadded(t, q);
      assert TrailingWhitespace(t) == 0;
      assert rest[..|rest| - |q|] == t;
    }
  }

  /** `trim` is idempotent. */
  lemma TrimIdempotent(s: string)
    ensures Trim(Trim(s)) == Trim(s)
  {
    var t := Trim(s);
    assert [] + t + [] == t;
    TrimOfPadded([], t, []);
  }

  lemma AllWhitespaceConcat(x: string, y: string)
    requires AllWhitespace(x) && AllWhitespace(y)
    ensures AllWhitespace(x + y)
  {
    forall i | 0 <= i < |x + y| ensures IsWhitespace((x + y)[i]) {
      if i < |x| {
        assert (x + y)[i] == x[i];
      } else {
        assert (x + y)[i] == y[i - |x|];
      }
    }
  }

  lemma Regroup(p: string, x: string, t: string, y: string, q: string)
    ensures p + (x + t + y) + q == (p + x) + t + (y + q)
  {
  }

  /** `s` is its leading whitespace, its trimmed form and its trailing whitespace. */
  lemma TrimSplit(s: string) returns (pre: string, post: string)
    ensures AllWhitespace(pre) && AllWhitespace(post)
    ensures s == pre + Trim(s) + post
  {
    var a := LeadingWhitespace(s);
    var b := a + |Trim(s)|;
    pre, post := s[..a], s[b..];
    assert AllWhitespace(pre);
    assert AllWhitespace(post);
    assert s == s[..a] + s[a..b] + s[b..];
  }

  /** Extra whitespace around the input does not change what `trim` returns. */
  lemma TrimIgnoresPadding(p: string, s: string, q: string)
    requires AllWhitespace(p) && AllWhitespace(q)
    ensures Trim(p + s + q) == Trim(s)
  {
    var pre, post := TrimSplit(s);
    AllWhitespaceConcat(p, pre);
    AllWhitespaceConcat(post, q);
    Regroup(p, pre, Trim(s), post, q);
    TrimOfPadded(p + pre, Trim(s), post + q);
  }

  /** Trimming and upper-casing commute. */
  lemma TrimUpperCommute(s: string)
    ensures Trim(Upper(s)) == Upper(Trim(s))
  {
    var t := Trim(s);
    var pre, post := TrimSplit(s);
    UpperConcat(pre + t, post);
    UpperConcat(pre, t);
    UpperKeepsWhitespace(pre);
    UpperKeepsWhitespace(t);
    UpperKeepsWhitespace(post);
    TrimOfPadded(Upper(pre), Upper(t), Upper(post));
  }

  /** A trimmed string without lower-case letters is already normalized. */
  lemma NormalizeFixpoint(s: string)
    requires IsTrimmed(s) && NoLower(s)
    ensures Normalize(s) == s
  {
    assert [] + s + [] == s;
    TrimOfPadded([], s, []);
    UpperOfNoLower(s);
  }

  /** Normalizing twice is normalizing once. */
  lemma NormalizeIdempotent(s: string)
    ensures Normalize(Normalize(s)) == Normalize(s)
  {
    UpperKeepsWhitespace(Trim(s));
    UpperIdempotent(Trim(s));
    NormalizeFixpoint(Normalize(s));
  }

  /** Padding with whitespace and changing the case of letters does not change
      the normalized form. */
  lemma NormalizeIgnoresCaseAndPadding(p: string, a: string, q: string, b: string)
    requires AllWhitespace(p) && AllWhitespace(q)
    requires Upper(a) == Upper(b)
    ensures Normalize(p + a + q) == Normalize(b)
  {
    TrimIgnoresPadding(p, a, q);
    TrimUpperCommute(a);
    TrimUpperCommute(b);
  }

  /** Input made only of whitespace normalizes to the empty string. */
  lemma NormalizeBlank(s: string)
    requires AllWhitespace(s)
    ensures Normalize(s) == []
  {
    assert s + [] + [] == s;
    TrimOfPadded(s, [], []);
  }
}
