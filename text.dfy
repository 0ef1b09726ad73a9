/** The pieces of Go's `strings` and `unicode` packages that the bot relies on:
    white space, prefixes, `strings.Fields` and `strings.TrimSpace`.

    Strings are modelled as sequences of decoded code points.  Go works on
    UTF-8 bytes and decodes them while scanning; an invalid byte is never white
    space there, and that encoding layer is not modelled. */
module Text {

  /** Go's `unicode.IsSpace`: in the Latin-1 range the ASCII spaces '\t',
      '\n', '\v', '\f', '\r', ' ' and NEL, NBSP; above it the code points
      carrying the Unicode White_Space property.  This fixed set stands in for
      the library's Unicode table. */
  const WhiteSpace: set<char> := {
    '\t', '\n', '\U{000B}', '\U{000C}', '\r', ' ', '\U{0085}', '\U{00A0}',
    '\U{1680}', '\U{2000}', '\U{2001}', '\U{2002}', '\U{2003}', '\U{2004}', '\U{2005}',
    '\U{2006}', '\U{2007}', '\U{2008}', '\U{2009}', '\U{200A}',
    '\U{2028}', '\U{2029}', '\U{202F}', '\U{205F}', '\U{3000}'
  }

  predicate IsSpace(c: char) {
    c in WhiteSpace
  }

  predicate NoSpace(s: string) {
    forall i :: 0 <= i < |s| ==> !IsSpace(s[i])
  }

  predicate AllSpace(s: string) {
    forall i :: 0 <= i < |s| ==> IsSpace(s[i])
  }

  /** No white space at either end. */
  predicate Trimmed(s: string) {
    s == [] || (!IsSpace(s[0]) && !IsSpace(s[|s| - 1]))
  }

  /** Go's `strings.HasPrefix`. */
  predicate HasPrefix(s: string, p: string) {
    |p| <= |s| && s[..|p|] == p
  }

  /** Go's `strings.TrimPrefix`: removes one copy of `p` if `s` starts with it. */
  function TrimPrefix(s: string, p: string): (r: string)
    ensures HasPrefix(s, p) ==> p + r == s
    ensures !HasPrefix(s, p) ==> r == s
  {
    if HasPrefix(s, p) then s[|p|..] else s
  }

  /** Length of the leading run of white space of `s`: what
      `strings.TrimLeftFunc(s, unicode.IsSpace)` cuts away. */
  function LeadingSpace(s: string): (n: nat)
    ensures n <= |s| && AllSpace(s[..n])
    ensures n == |s| || !IsSpace(s[n])
    decreases |s|
  {
    if s != [] && IsSpace(s[0]) then 1 + LeadingSpace(s[1..]) else 0
  }

  /** `strings.TrimRightFunc(s, unicode.IsSpace)`: the prefix left after the
      trailing run of white space. */
  function TrimRight(s: string): (r: string)
    ensures |r| <= |s| && r == s[..|r|]
    ensures AllSpace(s[|r|..])
    ensures r == [] || !IsSpace(r[|r| - 1])
    decreases |s|
  {
    if s != [] && IsSpace(s[|s| - 1]) then TrimRight(s[..|s| - 1]) else s
  }

  /** Go's `strings.TrimSpace`: the piece of `s` that starts right after its
      leading white space and leaves only white space after it, without white
      space at either end. */
  function TrimSpace(s: string): (r: string)
    ensures Trimmed(r)
    ensures var i := LeadingSpace(s);
      i + |r| <= |s| && r == s[i..i + |r|] && AllSpace(s[i + |r|..])
  {
    var i := LeadingSpace(s);
    var t := s[i..];
    var r := TrimRight(t);
    assert r != [] ==> r[0] == t[0];
    assert s[i + |r|..] == t[|r|..];
    r
  }

  /** A string without leading or trailing white space is its own trim. */
  lemma TrimSpaceKeepsTrimmed(s: string)
    requires Trimmed(s)
    ensures TrimSpace(s) == s
  {
  }

  /** Trimming twice is trimming once. */
  lemma TrimSpaceIdempotent(s: string)
    ensures TrimSpace(TrimSpace(s)) == TrimSpace(s)
  {
    TrimSpaceKeepsTrimmed(TrimSpace(s));
  }

  /** Length of the longest prefix of `s` that holds no white space. */
  function WordLength(s: string): (n: nat)
    ensures n <= |s| && NoSpace(s[..n])
    ensures n == |s| || IsSpace(s[n])
  {
    if s == [] || IsSpace(s[0]) then 0 else 1 + WordLength(s[1..])
  }

  /** Go's `strings.Fields`: the maximal runs of non-white-space characters of
      `s`, left to right; empty when `s` is only white space. */
  function Fields(s: string): seq<string>
    decreases |s|
  {
    if s == [] then []
    else if IsSpace(s[0]) then Fields(s[1..])
    else
      var n := WordLength(s);
      [s[..n]] + Fields(s[n..])
  }

  /** Every word `strings.Fields` returns is non-empty and holds no white space. */
  lemma {:induction false} FieldsAreWords(s: string)
    ensures forall w :: w in Fields(s) ==> w != [] && NoSpace(w)
    decreases |s|
  {
    if s != [] {
      if IsSpace(s[0]) {
        FieldsAreWords(s[1..]);
      } else {
        FieldsAreWords(s[WordLength(s)..]);
      }
    }
  }

  /** `strings.Fields` finds no word exactly when the text is only white space. */
  lemma {:induction false} FieldsEmpty(s: string)
    ensures Fields(s) == [] <==> AllSpace(s)
    decreases |s|
  {
    if s != [] && IsSpace(s[0]) {
      FieldsEmpty(s[1..]);
    }
  }

  /** A text without white space is one word from end to end. */
  lemma {:induction false} WordLengthNoSpace(w: string)
    requires NoSpace(w)
    ensures WordLength(w) == |w|
    decreases |w|
  {
    if w != [] {
      WordLengthNoSpace(w[1..]);
    }
  }

  /** A single word splits into itself. */
  lemma FieldsOfWord(w: string)
    requires w != [] && NoSpace(w)
    ensures Fields(w) == [w]
  {
    WordLengthNoSpace(w);
    assert w[|w|..] == [];
    assert w[..|w|] == w;
  }

  /** The first word of `a` stays the first word when more text follows it
      after a white-space character. */
  lemma {:induction false} WordLengthExtend(a: string, x: string)
    requires x != [] && IsSpace(x[0])
    ensures WordLength(a + x) == WordLength(a)
    decreases |a|
  {
    if a == [] {
      assert a + x == x;
    } else if !IsSpace(a[0]) {
      assert (a + x)[1..] == a[1..] + x;
      WordLengthExtend(a[1..], x);
    }
  }

  /** Text joined by one white-space character splits into the words of each
      side: the separator never glues a word of `a` to a word of `b`. */
  lemma {:induction false} FieldsSeparated(a: string, c: char, b: string)
    requires IsSpace(c)
    ensures Fields(a + [c] + b) == Fields(a) + Fields(b)
    decreases |a|
  {
    if a == [] {
      assert (a + [c] + b)[1..] == b;
    } else if IsSpace(a[0]) {
      FieldsSkipSpace(a, [c] + b);
      assert a[1..] + ([c] + b) == a[1..] + [c] + b;
      assert a + ([c] + b) == a + [c] + b;
      FieldsSeparated(a[1..], c, b);
    } else {
      var n := WordLength(a);
      FieldsSplitWord(a, [c] + b);
      assert a[n..] + ([c] + b) == a[n..] + [c] + b;
      assert a + ([c] + b) == a + [c] + b;
      FieldsSeparated(a[n..], c, b);
    }
  }

  /** A leading white-space character of `a` is skipped in `a + x` as in `a`. */
  lemma FieldsSkipSpace(a: string, x: string)
    requires a != [] && IsSpace(a[0])
    ensures Fields(a + x) == Fields(a[1..] + x) && Fields(a) == Fields(a[1..])
  {
    assert (a + x)[1..] == a[1..] + x;
  }

  /** The leading word of `a` is the leading word of `a + x` when `x` starts
      with white space, and the rest is split alike. */
  lemma FieldsSplitWord(a: string, x: string)
    requires a != [] && !IsSpace(a[0]) && x != [] && IsSpace(x[0])
    ensures var n := WordLength(a);
      Fields(a + x) == [a[..n]] + Fields(a[n..] + x) && Fields(a) == [a[..n]] + Fields(a[n..])
  {
    var n := WordLength(a);
    WordLengthExtend(a, x);
    assert (a + x)[..n] == a[..n];
    assert (a + x)[n..] == a[n..] + x;
  }
}
