/**
 * Small building blocks shared by the whole model: an Option type for the
 * JavaScript values that may be `null`, the string operations of the
 * JavaScript runtime that the portal relies on (white space, `trim`,
 * `toLowerCase`, `includes`), and list filtering and counting.
 */
module Base {

  /** A value that may be absent (`null` or `undefined` in the portal). */
  datatype Option<+T> = None | Some(value: T) {
    /**
     * `x ?? d`: the value, or the default when absent. For a nullable string
     * with `d` the empty string (or a list with `d` empty) this is also
     * `x || d`, which is how every caller uses it.
     */
    function GetOr(default: T): T {
      match this
      case Some(v) => v
      case None => default
    }
  }

  // ---------------------------------------------------------------------------
  // Characters

  /** The characters of JavaScript's `\s` class, which are also those that `String.prototype.trim` removes. */
  predicate IsJsWhitespace(c: char) {
    || c == '\t' || c == '\n' || c == '\U{000B}' || c == '\U{000C}' || c == '\r' || c == ' '
    || c == '\U{00A0}' || c == '\U{1680}' || ('\U{2000}' <= c <= '\U{200A}')
    || c == '\U{2028}' || c == '\U{2029}' || c == '\U{202F}' || c == '\U{205F}'
    || c == '\U{3000}' || c == '\U{FEFF}'
  }

  predicate IsAsciiLower(c: char) { 'a' <= c <= 'z' }
  predicate IsAsciiUpper(c: char) { 'A' <= c <= 'Z' }
  predicate IsAsciiLetter(c: char) { IsAsciiLower(c) || IsAsciiUpper(c) }
  predicate IsDigit(c: char) { '0' <= c <= '9' }

  /** A character of JavaScript's `\w` class (without the `u` flag). */
  predicate IsWordChar(c: char) { IsAsciiLetter(c) || IsDigit(c) || c == '_' }

  /** `toLowerCase` on one character, for the ASCII letters. */
  function LowerChar(c: char): (r: char)
    ensures IsAsciiUpper(c) ==> IsAsciiLower(r) && r as int == c as int + 32
    ensures !IsAsciiUpper(c) ==> r == c
  {
    if IsAsciiUpper(c) then (c as int + 32) as char else c
  }

  /** `toLowerCase` on a string (ASCII letters folded, every other character kept). */
  function ToLower(s: string): (r: string)
    ensures |r| == |s|
    ensures forall i :: 0 <= i < |s| ==> r[i] == LowerChar(s[i])
  {
    seq(|s|, i requires 0 <= i < |s| => LowerChar(s[i]))
  }

  // ---------------------------------------------------------------------------
  // trim

  predicate AllWhitespace(s: string) {
    forall i :: 0 <= i < |s| ==> IsJsWhitespace(s[i])
  }

  /** Drops the leading white space. */
  function TrimStart(s: string): (r: string)
    decreases |s|
    ensures |r| <= |s| && r == s[|s| - |r|..]
    ensures AllWhitespace(s[..|s| - |r|])
    ensures r == [] || !IsJsWhitespace(r[0])
  {
    if |s| > 0 && IsJsWhitespace(s[0]) then
      var r := TrimStart(s[1..]);
      assert forall k :: 1 <= k < |s| - |r| ==> s[k] == s[1..][..|s[1..]| - |r|][k - 1];
      assert forall k :: 0 <= k < |s| - |r| ==> s[..|s| - |r|][k] == s[k];
      r
    else s
  }

  /** Drops the trailing white space. */
  function TrimEnd(s: string): (r: string)
    decreases |s|
    ensures |r| <= |s| && r == s[..|r|]
    ensures AllWhitespace(s[|r|..])
    ensures r == [] || !IsJsWhitespace(r[|r| - 1])
  {
    if |s| > 0 && IsJsWhitespace(s[|s| - 1]) then
      var r := TrimEnd(s[..|s| - 1]);
      assert forall k :: |r| <= k < |s| - 1 ==> s[k] == s[..|s| - 1][|r|..][k - |r|];
      assert forall k :: |r| <= k < |s| ==> s[|r|..][k - |r|] == s[k];
      r
    else s
  }

  /** The number of white-space characters at the start of `s`, which `trim` drops. */
  function LeadingBlanks(s: string): (n: nat)
    ensures n <= |s| && AllWhitespace(s[..n])
  {
    |s| - |TrimStart(s)|
  }

  /**
   * `String.prototype.trim`: the result is the infix of `s` after its
   * leading white space, with only white space after it, and it neither
   * starts nor ends with white space.
   */
  function Trim(s: string): (r: string)
    ensures LeadingBlanks(s) + |r| <= |s|
    ensures r == s[LeadingBlanks(s)..LeadingBlanks(s) + |r|]
    ensures AllWhitespace(s[LeadingBlanks(s) + |r|..])
    ensures r == [] || (!IsJsWhitespace(r[0]) && !IsJsWhitespace(r[|r| - 1]))
  {
    var t := TrimStart(s);
    var r := TrimEnd(t);
    SliceOfSuffix(s, |s| - |t|, |r|);
    r
  }

  lemma SliceOfSuffix(s: string, i: nat, n: nat)
    requires i + n <= |s|
    ensures s[i..][..n] == s[i..i + n] && s[i..][n..] == s[i + n..]
  {
  }

  /** `s.trim() === ""`: the string is empty or consists of white space only. */
  lemma TrimEmptyIffBlank(s: string)
    ensures Trim(s) == [] <==> AllWhitespace(s)
  {
    var i := LeadingBlanks(s);
    if Trim(s) == [] {
      assert s == s[..i] + s[i..];
      BlankJoin(s[..i], s[i..]);
    } else {
      assert s[i] == Trim(s)[0];
    }
  }

  lemma BlankJoin(a: string, b: string)
    requires AllWhitespace(a) && AllWhitespace(b)
    ensures AllWhitespace(a + b)
  {
    forall k | 0 <= k < |a + b| ensures IsJsWhitespace((a + b)[k]) {
      if k >= |a| { assert (a + b)[k] == b[k - |a|]; }
    }
  }

  // ---------------------------------------------------------------------------
  // includes

  /** `needle` occurs in `hay` starting at index `i`. */
  predicate OccursAt(hay: string, needle: string, i: int) {
    0 <= i <= |hay| - |needle| && hay[i..i + |needle|] == needle
  }

  /** `hay.includes(needle)`. */
  predicate Contains(hay: string, needle: string) {
    exists i | 0 <= i <= |hay| - |needle| :: OccursAt(hay, needle, i)
  }

  // ---------------------------------------------------------------------------
  // Array.prototype.filter and counting

  /** `t` can be obtained from `s` by deleting elements, keeping the order of the rest. */
  predicate IsSubsequence<T(==)>(t: seq<T>, s: seq<T>)
    decreases |s|
  {
    if t == [] then true
    else if s == [] then false
    else if t[0] == s[0] then IsSubsequence(t[1..], s[1..])
    else IsSubsequence(t, s[1..])
  }

  /** `s.filter(p)`. */
  function Where<T>(s: seq<T>, p: T -> bool): (r: seq<T>)
    ensures |r| <= |s|
    ensures forall x :: x in r ==> x in s && p(x)
  {
    if s == [] then []
    else if p(s[0]) then [s[0]] + Where(s[1..], p)
    else Where(s[1..], p)
  }

  /** `s.filter(p).length`. */
  function Count<T>(s: seq<T>, p: T -> bool): (n: nat)
    ensures n <= |s|
  {
    if s == [] then 0 else (if p(s[0]) then 1 else 0) + Count(s[1..], p)
  }

  /** Filtering keeps exactly the elements that satisfy the predicate. */
  lemma {:induction false} WhereKeepsExactly<T>(s: seq<T>, p: T -> bool, x: T)
    ensures x in Where(s, p) <==> x in s && p(x)
  {
    if s != [] {
      WhereKeepsExactly(s[1..], p, x);
      if x == s[0] && p(x) { assert x == Where(s, p)[0]; }
    }
  }

  /** Filtering preserves the order of what it keeps. */
  lemma {:induction false} WhereIsSubsequence<T>(s: seq<T>, p: T -> bool)
    ensures IsSubsequence(Where(s, p), s)
  {
    if s != [] {
      WhereIsSubsequence(s[1..], p);
      if p(s[0]) {
        var w := Where(s, p);
        assert w[0] == s[0] && w[1..] == Where(s[1..], p);
      } else {
        SubsequenceSkip(Where(s[1..], p), s);
      }
    }
  }

  /** Every sequence is a subsequence of itself. */
  lemma {:induction false} SubsequenceRefl<T>(s: seq<T>)
    ensures IsSubsequence(s, s)
    decreases |s|
  {
    if s != [] { SubsequenceRefl(s[1..]); }
  }

  /** Dropping the first element of the larger sequence keeps a subsequence a subsequence. */
  lemma {:induction false} SubsequenceSkip<T>(t: seq<T>, s: seq<T>)
    requires s != [] && IsSubsequence(t, s[1..])
    ensures IsSubsequence(t, s)
    decreases |s|, 0
  {
    if t != [] && t[0] == s[0] { SubsequenceTail(t, s[1..]); }
  }

  /** Removing the head of a subsequence keeps it a subsequence. */
  lemma {:induction false} SubsequenceTail<T>(t: seq<T>, s: seq<T>)
    requires t != [] && IsSubsequence(t, s)
    ensures IsSubsequence(t[1..], s)
    decreases |s|, 1
  {
    if s != [] {
      if t[0] == s[0] {
        SubsequenceSkip(t[1..], s);
      } else {
        SubsequenceTail(t, s[1..]);
        SubsequenceSkip(t[1..], s);
      }
    }
  }

  /** The number of elements kept by a filter is the count of elements satisfying its predicate. */
  lemma {:induction false} WhereLength<T>(s: seq<T>, p: T -> bool)
    ensures |Where(s, p)| == Count(s, p)
  {
    if s != [] { WhereLength(s[1..], p); }
  }

  /** Three pairwise exclusive predicates together count at most the whole sequence. */
  lemma {:induction false} CountExclusive3<T>(s: seq<T>, p: T -> bool, q: T -> bool, r: T -> bool)
    requires forall x :: x in s ==> !(p(x) && q(x)) && !(p(x) && r(x)) && !(q(x) && r(x))
    ensures Count(s, p) + Count(s, q) + Count(s, r) <= |s|
  {
    if s != [] {
      assert s[0] in s;
      assert forall x :: x in s[1..] ==> x in s;
      CountExclusive3(s[1..], p, q, r);
    }
  }

  // ---------------------------------------------------------------------------
  // Search boxes

  /**
   * The filter behind a search box: every element for a query that trims to
   * "", otherwise the elements that `matches` the query, in their own order.
   */
  function SearchFilter<T(==)>(xs: seq<T>, query: string, matches: (T, string) -> bool): (r: seq<T>)
    ensures |r| <= |xs|
    ensures IsSubsequence(r, xs)
  {
    if Trim(query) == "" then
      SubsequenceRefl(xs);
      xs
    else
      var p := (x: T) => matches(x, query);
      WhereIsSubsequence(xs, p);
      Where(xs, p)
  }

  /** A query of white space only (or none) keeps everything; any other keeps exactly the matching elements. */
  lemma SearchFilterSpec<T>(xs: seq<T>, query: string, matches: (T, string) -> bool)
    ensures AllWhitespace(query) ==> SearchFilter(xs, query, matches) == xs
    ensures !AllWhitespace(query) ==>
      forall x :: x in SearchFilter(xs, query, matches) <==> x in xs && matches(x, query)
  {
    TrimEmptyIffBlank(query);
    var p := (x: T) => matches(x, query);
    if !AllWhitespace(query) {
      forall x ensures x in Where(xs, p) <==> x in xs && matches(x, query) {
        WhereKeepsExactly(xs, p, x);
      }
    }
  }
}
