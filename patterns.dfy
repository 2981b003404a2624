/**
 * The four regular expressions of the portal, read as predicates on strings.
 * The phone and e-mail expressions are written out identically in the form
 * validation and in the security utilities; both use the definitions here.
 */
module Patterns {
  import opened Base

  // ---------------------------------------------------------------------------
  // Egyptian mobile number: ^(\+20|0)?1[0125][0-9]{8}$

  predicate AllDigits(s: string) {
    forall i :: 0 <= i < |s| ==> IsDigit(s[i])
  }

  /** `[0125]`: the digit naming the mobile operator. */
  predicate IsOperatorDigit(c: char) {
    c == '0' || c == '1' || c == '2' || c == '5'
  }

  /** `1[0125][0-9]{8}`: the ten characters after the optional prefix. */
  predicate IsMobileBody(t: string) {
    |t| == 10 && t[0] == '1' && IsOperatorDigit(t[1]) && AllDigits(t[2..])
  }

  /** The phone expression: an optional "+20" or "0", then the mobile body, and nothing else. */
  predicate MatchesPhone(s: string) {
    || IsMobileBody(s)
    || (|s| >= 1 && s[0] == '0' && IsMobileBody(s[1..]))
    || (|s| >= 3 && s[..3] == "+20" && IsMobileBody(s[3..]))
  }

  /** The three ways the expression's optional group `(\+20|0)?` can be matched. */
  datatype PhonePrefix = NoPrefix | TrunkZero | CountryCode

  function PrefixText(p: PhonePrefix): string {
    match p
    case NoPrefix => ""
    case TrunkZero => "0"
    case CountryCode => "+20"
  }

  /** The number written with a prefix, an operator digit and eight subscriber digits. */
  function PhoneNumber(p: PhonePrefix, operator: char, subscriber: string): string {
    PrefixText(p) + ['1', operator] + subscriber
  }

  /**
   * A string is accepted exactly when it is an optional prefix, then "1",
   * then one of 0/1/2/5, then exactly eight digits.
   */
  lemma PhoneAcceptedIffWellFormed(s: string)
    ensures MatchesPhone(s) <==>
      exists p, op, sub :: IsOperatorDigit(op) && |sub| == 8 && AllDigits(sub) && s == PhoneNumber(p, op, sub)
  {
    if MatchesPhone(s) {
      MatchedPhoneWellFormed(s);
    } else {
      forall p, op, sub | IsOperatorDigit(op) && |sub| == 8 && AllDigits(sub)
        ensures s != PhoneNumber(p, op, sub)
      {
        WellFormedPhoneMatched(p, op, sub);
      }
    }
  }

  lemma MatchedPhoneWellFormed(s: string)
    requires MatchesPhone(s)
    ensures exists p, op, sub :: IsOperatorDigit(op) && |sub| == 8 && AllDigits(sub) && s == PhoneNumber(p, op, sub)
  {
    var p := if IsMobileBody(s) then NoPrefix
             else if |s| >= 1 && s[0] == '0' && IsMobileBody(s[1..]) then TrunkZero
             else CountryCode;
    var n := |PrefixText(p)|;
    var t := s[n..];
    assert IsMobileBody(t);
    assert s[..n] == PrefixText(p);
    assert t == ['1', t[1]] + t[2..];
    assert forall i :: 0 <= i < 8 ==> t[2..][i] == t[2 + i];
    assert s == PhoneNumber(p, t[1], t[2..]);
  }

  lemma WellFormedPhoneMatched(p: PhonePrefix, op: char, sub: string)
    requires IsOperatorDigit(op) && |sub| == 8 && AllDigits(sub)
    ensures MatchesPhone(PhoneNumber(p, op, sub))
  {
    var w := PhoneNumber(p, op, sub);
    var n := |PrefixText(p)|;
    assert w[n..] == ['1', op] + sub;
    assert w[n..][2..] == sub;
    assert IsMobileBody(w[n..]);
    if p == NoPrefix { assert w[n..] == w; }
  }

  /** A typical accepted number, and a refused one that has a 7 where the mandatory 1 must stand. */
  lemma PhoneExamples()
    ensures MatchesPhone("01012345678")
    ensures !MatchesPhone("0701234567")
  {
    assert IsMobileBody("01012345678"[1..]);
  }

  // ---------------------------------------------------------------------------
  // E-mail address: ^[^\s@]+@[^\s@]+\.[^\s@]+$

  /** `[^\s@]`. */
  predicate IsEmailChar(c: char) {
    c != '@' && !IsJsWhitespace(c)
  }

  predicate AllEmailChars(s: string) {
    forall i :: 0 <= i < |s| ==> IsEmailChar(s[i])
  }

  /** A '.' at index `i` with at least one character on each side. */
  predicate InnerDotAt(d: string, i: int) {
    0 < i < |d| - 1 && d[i] == '.'
  }

  predicate HasInnerDot(d: string) {
    exists i | 0 < i < |d| - 1 :: InnerDotAt(d, i)
  }

  /**
   * The e-mail expression matches with its '@' at index `k`: a non-empty
   * local part and a domain, both without '@' or white space, the domain
   * being `[^\s@]+\.[^\s@]+`, that is, holding a '.' that is neither its
   * first nor its last character.
   */
  predicate EmailSplitAt(s: string, k: int) {
    && 0 < k < |s| && s[k] == '@'
    && AllEmailChars(s[..k])
    && AllEmailChars(s[k + 1..]) && HasInnerDot(s[k + 1..])
  }

  predicate MatchesEmail(s: string) {
    exists k | 0 < k < |s| :: EmailSplitAt(s, k)
  }

  /** The number of occurrences of `c` in `s`. */
  function CountChar(s: string, c: char): (n: nat)
    ensures n <= |s|
  {
    if s == [] then 0 else (if s[0] == c then 1 else 0) + CountChar(s[1..], c)
  }

  lemma {:induction false} CountCharAppend(a: string, b: string, c: char)
    ensures CountChar(a + b, c) == CountChar(a, c) + CountChar(b, c)
  {
    if a == [] {
      assert a + b == b;
    } else {
      assert (a + b)[1..] == a[1..] + b;
      CountCharAppend(a[1..], b, c);
    }
  }

  lemma {:induction false} CountCharZero(s: string, c: char)
    ensures CountChar(s, c) == 0 <==> forall i :: 0 <= i < |s| ==> s[i] != c
  {
    if s != [] {
      CountCharZero(s[1..], c);
      assert forall i :: 1 <= i < |s| ==> s[i] == s[1..][i - 1];
    }
  }

  predicate NoWhitespace(s: string) {
    forall i :: 0 <= i < |s| ==> !IsJsWhitespace(s[i])
  }

  /**
   * What an accepted address looks like, stated without the expression:
   * no white space, exactly one '@', not at the start, and after it a
   * domain with a '.' that has text on both sides.
   */
  predicate EmailShaped(s: string) {
    && NoWhitespace(s)
    && CountChar(s, '@') == 1
    && exists k | 0 < k < |s| :: s[k] == '@' && HasInnerDot(s[k + 1..])
  }

  /** The e-mail expression accepts exactly the strings of that shape. */
  lemma EmailAcceptedIffShaped(s: string)
    ensures MatchesEmail(s) <==> EmailShaped(s)
  {
    if MatchesEmail(s) {
      MatchedEmailShaped(s);
    }
    if EmailShaped(s) {
      ShapedEmailMatched(s);
    }
  }

  lemma MatchedEmailShaped(s: string)
    requires MatchesEmail(s)
    ensures EmailShaped(s)
  {
    var k :| 0 < k < |s| && EmailSplitAt(s, k);
    SplitAround(s, k);
    CountCharZero(s[..k], '@');
    CountCharZero(s[k + 1..], '@');
    forall i | 0 <= i < |s| ensures !IsJsWhitespace(s[i]) {
      if i < k { assert s[..k][i] == s[i]; }
      else if i > k { assert s[k + 1..][i - k - 1] == s[i]; }
    }
  }

  lemma ShapedEmailMatched(s: string)
    requires EmailShaped(s)
    ensures MatchesEmail(s)
  {
    var k :| 0 < k < |s| && s[k] == '@' && HasInnerDot(s[k + 1..]);
    SplitAround(s, k);
    CountCharZero(s[..k], '@');
    CountCharZero(s[k + 1..], '@');
    assert forall i :: 0 <= i < k ==> s[..k][i] == s[i];
    assert forall i :: k + 1 <= i < |s| ==> s[k + 1..][i - k - 1] == s[i];
    assert EmailSplitAt(s, k);
  }

  /** The count of a character splits around an index. */
  lemma SplitAround(s: string, k: int)
    requires 0 <= k < |s|
    ensures CountChar(s, s[k]) == CountChar(s[..k], s[k]) + 1 + CountChar(s[k + 1..], s[k])
  {
    CountCharSplit(s, k, s[k]);
  }

  lemma {:induction false} CountCharSplit(s: string, k: nat, c: char)
    requires k < |s|
    ensures CountChar(s, c) == CountChar(s[..k], c) + (if s[k] == c then 1 else 0) + CountChar(s[k + 1..], c)
    decreases k
  {
    if k == 0 {
      assert s[..0] == [] && s[1..] == s[k + 1..];
    } else {
      var t := s[1..];
      CountCharSplit(t, k - 1, c);
      assert t[..k - 1] == s[..k][1..] && s[..k][0] == s[0];
      assert t[k..] == s[k + 1..] && t[k - 1] == s[k];
    }
  }

  // ---------------------------------------------------------------------------
  // Names: ^[a-zA-Z\s]+$ and ^[\u0600-\u06FF\s]+$

  predicate IsEnglishNameChar(c: char) {
    IsAsciiLetter(c) || IsJsWhitespace(c)
  }

  /** At least one character, each an ASCII letter or white space. */
  predicate MatchesEnglishName(s: string) {
    |s| > 0 && forall i :: 0 <= i < |s| ==> IsEnglishNameChar(s[i])
  }

  /** A character of the Arabic block U+0600..U+06FF, or white space. */
  predicate IsArabicNameChar(c: char) {
    ('\U{0600}' <= c <= '\U{06FF}') || IsJsWhitespace(c)
  }

  /** At least one character, each from the Arabic block or white space. */
  predicate MatchesArabicName(s: string) {
    |s| > 0 && forall i :: 0 <= i < |s| ==> IsArabicNameChar(s[i])
  }
}
