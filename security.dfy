/**
 * The security utilities: a keyed rate limiter, input sanitisation, the
 * e-mail and phone checks, password-strength scoring, one-time CSRF tokens
 * and an expiring session record in local storage.
 *
 * Clock readings, random token text and timer callbacks are parameters or
 * separate operations: `now` is passed in, a token is handed to
 * `GenerateToken`, and the one-hour expiry timer is the `ExpireToken` call.
 */
module Security {
  import opened Base
  import opened Patterns
  import opened Storage
  import Validation

  function Max(a: int, b: int): int { if a >= b then a else b }
  function Min(a: int, b: int): int { if a <= b then a else b }

  // ---------------------------------------------------------------------------
  // Rate limiting

  datatype AttemptRecord = AttemptRecord(count: int, resetTime: int)

  /** What one `isAllowed` call decides for an identifier, and the record it leaves behind. */
  datatype Decision = Decision(allowed: bool, record: AttemptRecord)

  /**
   * One `isAllowed` call at time `now` on the identifier's record (None when
   * it has none): a missing or expired record starts a new window with count
   * 1; inside the window a record at the limit refuses and stays as it is,
   * and any other record is counted up.
   */
  function Step(rec: Option<AttemptRecord>, now: int, maxAttempts: int, windowMs: int): Decision {
    if rec.None? || now > rec.value.resetTime then Decision(true, AttemptRecord(1, now + windowMs))
    else if rec.value.count >= maxAttempts then Decision(false, rec.value)
    else Decision(true, AttemptRecord(rec.value.count + 1, rec.value.resetTime))
  }

  /** The number of calls allowed among the calls at `times`, made one after the other on one identifier. */
  function AllowedCalls(rec: Option<AttemptRecord>, times: seq<int>, maxAttempts: int, windowMs: int): (n: nat)
    ensures n <= |times|
    decreases |times|
  {
    if times == [] then 0
    else
      var d := Step(rec, times[0], maxAttempts, windowMs);
      (if d.allowed then 1 else 0) + AllowedCalls(Some(d.record), times[1..], maxAttempts, windowMs)
  }

  /** The count a record may reach: at least 1, and never above the limit (or 1 when the limit is below 1). */
  predicate RecordInBounds(r: AttemptRecord, maxAttempts: int) {
    1 <= r.count <= Max(1, maxAttempts)
  }

  /** Every call leaves a record whose count is within bounds. */
  lemma StepKeepsBound(rec: Option<AttemptRecord>, now: int, maxAttempts: int, windowMs: int)
    requires rec.Some? ==> RecordInBounds(rec.value, maxAttempts)
    ensures RecordInBounds(Step(rec, now, maxAttempts, windowMs).record, maxAttempts)
  {
  }

  /**
   * Inside the current window (no call later than its reset time) exactly
   * `max(0, maxAttempts - count)` further calls are allowed, or all of them
   * when there are fewer: the figure `getRemainingAttempts` reports.
   */
  lemma {:induction false} WindowAllowsRemaining(r: AttemptRecord, times: seq<int>, maxAttempts: int, windowMs: int)
    requires forall k :: 0 <= k < |times| ==> times[k] <= r.resetTime
    ensures AllowedCalls(Some(r), times, maxAttempts, windowMs) == Min(|times|, Max(0, maxAttempts - r.count))
    decreases |times|
  {
    if times != [] {
      var d := Step(Some(r), times[0], maxAttempts, windowMs);
      assert d.record.resetTime == r.resetTime;
      WindowAllowsRemaining(d.record, times[1..], maxAttempts, windowMs);
    }
  }

  /**
   * From a fresh identifier, all calls made no later than one window after
   * the first are allowed at most `maxAttempts` times (once when the limit
   * is below 1).
   */
  lemma AtMostMaxPerWindow(times: seq<int>, maxAttempts: int, windowMs: int)
    requires |times| > 0
    requires forall k :: 0 <= k < |times| ==> times[k] <= times[0] + windowMs
    ensures AllowedCalls(None, times, maxAttempts, windowMs) <= Max(1, maxAttempts)
  {
    var first := AttemptRecord(1, times[0] + windowMs);
    WindowAllowsRemaining(first, times[1..], maxAttempts, windowMs);
  }

  class RateLimiter {
    const maxAttempts: int
    const windowMs: int
    var attempts: map<string, AttemptRecord>

    ghost predicate Valid()
      reads this
    {
      forall id :: id in attempts ==> RecordInBounds(attempts[id], maxAttempts)
    }

    /** The record kept for an identifier. */
    function Lookup(identifier: string): (r: Option<AttemptRecord>)
      reads this
      ensures r.Some? <==> identifier in attempts
      ensures r.Some? ==> r.value == attempts[identifier]
    {
      if identifier in attempts then Some(attempts[identifier]) else None
    }

    /** Five attempts per fifteen minutes unless told otherwise. */
    constructor (maxAttempts: int := 5, windowMs: int := 15 * 60 * 1000)
      ensures this.maxAttempts == maxAttempts && this.windowMs == windowMs
      ensures attempts == map[] && Valid()
    {
      this.maxAttempts := maxAttempts;
      this.windowMs := windowMs;
      attempts := map[];
    }

    /** `isAllowed`: decides by `Step` and stores the record it leaves; other identifiers keep theirs. */
    method IsAllowed(identifier: string, now: int) returns (allowed: bool)
      requires Valid()
      modifies this
      ensures Valid()
      ensures var d := Step(old(Lookup(identifier)), now, maxAttempts, windowMs);
        allowed == d.allowed && attempts == old(attempts)[identifier := d.record]
      ensures !allowed ==> attempts == old(attempts)
    {
      var record := Lookup(identifier);
      if record.None? {
        attempts := attempts[identifier := AttemptRecord(1, now + windowMs)];
        return true;
      }
      if now > record.value.resetTime {
        attempts := attempts[identifier := AttemptRecord(1, now + windowMs)];
        return true;
      }
      if record.value.count >= maxAttempts {
        assert attempts == attempts[identifier := record.value];
        return false;
      }
      attempts := attempts[identifier := AttemptRecord(record.value.count + 1, record.value.resetTime)];
      return true;
    }

    /** `getRemainingAttempts`: the limit for an unknown identifier, otherwise what is left of it, never negative. */
    method GetRemainingAttempts(identifier: string) returns (n: int)
      ensures identifier !in attempts ==> n == maxAttempts
      ensures identifier in attempts ==> n == Max(0, maxAttempts - attempts[identifier].count)
    {
      var record := Lookup(identifier);
      if record.None? {
        return maxAttempts;
      }
      n := Max(0, maxAttempts - record.value.count);
    }

    /** `getResetTime`: the end of the identifier's window, or null. */
    method GetResetTime(identifier: string) returns (t: Option<int>)
      ensures t.Some? <==> identifier in attempts
      ensures t.Some? ==> t.value == attempts[identifier].resetTime
    {
      var record := Lookup(identifier);
      t := if record.Some? then Some(record.value.resetTime) else None;
    }

    /** `clear`: forgets this identifier only. */
    method Clear(identifier: string)
      requires Valid()
      modifies this
      ensures Valid()
      ensures attempts == old(attempts) - {identifier}
    {
      attempts := attempts - {identifier};
    }
  }

  /** The three limiters the module exports. */
  method CreateLimiters() returns (formSubmission: RateLimiter, loginAttempt: RateLimiter, apiRequest: RateLimiter)
    ensures fresh(formSubmission) && formSubmission.Valid() && formSubmission.attempts == map[]
    ensures formSubmission.maxAttempts == 3 && formSubmission.windowMs == 3600000
    ensures fresh(loginAttempt) && loginAttempt.Valid() && loginAttempt.attempts == map[]
    ensures loginAttempt.maxAttempts == 5 && loginAttempt.windowMs == 900000
    ensures fresh(apiRequest) && apiRequest.Valid() && apiRequest.attempts == map[]
    ensures apiRequest.maxAttempts == 100 && apiRequest.windowMs == 60000
  {
    formSubmission := new RateLimiter(3, 60 * 60 * 1000);
    loginAttempt := new RateLimiter(5, 15 * 60 * 1000);
    apiRequest := new RateLimiter(100, 60 * 1000);
  }

  // ---------------------------------------------------------------------------
  // Input sanitisation

  /** The argument of `sanitizeInput`: a string, or a value of another type. */
  datatype Input = StringInput(s: string) | OtherInput

  /** `replace(/[<>]/g, '')`. */
  function StripAngles(s: string): string {
    Where(s, (c: char) => c != '<' && c != '>')
  }

  const Scheme: string := "javascript:"

  /** `w` is "javascript:" in any letter case (the `i` flag folds ASCII letters only). */
  predicate IsScheme(w: string) {
    && |w| == 11
    && LowerChar(w[0]) == 'j' && LowerChar(w[1]) == 'a' && LowerChar(w[2]) == 'v' && LowerChar(w[3]) == 'a'
    && LowerChar(w[4]) == 's' && LowerChar(w[5]) == 'c' && LowerChar(w[6]) == 'r' && LowerChar(w[7]) == 'i'
    && LowerChar(w[8]) == 'p' && LowerChar(w[9]) == 't' && w[10] == ':'
  }

  /** "javascript:" in any letter case starts at index `i`. */
  predicate SchemeAt(s: string, i: int) {
    0 <= i <= |s| - |Scheme| && IsScheme(s[i..i + |Scheme|])
  }

  /** `replace(/javascript:/gi, '')`: one left-to-right pass removing each occurrence found. */
  function RemoveScheme(s: string): (r: string)
    ensures |r| <= |s| && (|r| == |s| ==> r == s)
    decreases |s|
  {
    if |s| < |Scheme| then s
    else if SchemeAt(s, 0) then RemoveScheme(s[|Scheme|..])
    else
      assert s == [s[0]] + s[1..];
      [s[0]] + RemoveScheme(s[1..])
  }

  /** The length of the longest run of `\w` characters at the start of `t`. */
  function WordRun(t: string): (n: nat)
    ensures n <= |t|
    ensures forall k :: 0 <= k < n ==> IsWordChar(t[k])
    ensures n == |t| || !IsWordChar(t[n])
  {
    if t != [] && IsWordChar(t[0]) then 1 + WordRun(t[1..]) else 0
  }

  /** The length of the `on\w+=` match (any letter case) at the start of `s`, or 0 when there is none. */
  function HandlerLength(s: string): (m: nat)
    ensures m == 0 || 4 <= m <= |s|
  {
    if |s| >= 2 && LowerChar(s[0]) == 'o' && LowerChar(s[1]) == 'n' then
      var n := WordRun(s[2..]);
      if n >= 1 && 2 + n < |s| && s[2 + n] == '=' then n + 3 else 0
    else 0
  }

  /** An event-handler attribute `on…=` spans indices `i` to `j` (the '='). */
  predicate HandlerAt(s: string, i: int, j: int) {
    && 0 <= i && i + 2 < j < |s|
    && LowerChar(s[i]) == 'o' && LowerChar(s[i + 1]) == 'n' && s[j] == '='
    && forall k :: i + 2 <= k < j ==> IsWordChar(s[k])
  }

  /** `replace(/on\w+=/gi, '')`: one left-to-right pass. */
  function RemoveHandlers(s: string): (r: string)
    ensures |r| <= |s| && (|r| == |s| ==> r == s)
    decreases |s|
  {
    if s == [] then []
    else
      var m := HandlerLength(s);
      if m > 0 then RemoveHandlers(s[m..])
      else
        assert s == [s[0]] + s[1..];
        [s[0]] + RemoveHandlers(s[1..])
  }

  /** `substring(0, 1000)`. */
  function Truncate(s: string): (r: string)
    ensures |r| <= 1000 && |r| <= |s| && r == s[..|r|]
  {
    if |s| <= 1000 then s else s[..1000]
  }

  /**
   * `sanitizeInput` as written: trim, remove angle brackets, then one pass
   * each for "javascript:" and `on…=`, then cut to 1000 characters. Only
   * characters of the input survive, in their order.
   */
  function SanitizeInput(input: Input): (r: string)
    ensures |r| <= 1000
    ensures forall k :: 0 <= k < |r| ==> r[k] != '<' && r[k] != '>'
    ensures input.StringInput? ==> IsSubsequence(r, input.s)
    ensures input.OtherInput? ==> r == ""
  {
    match input
    case OtherInput => ""
    case StringInput(s) =>
      var a := StripAngles(Trim(s));
      var u := RemoveScheme(a);
      var c := RemoveHandlers(u);
      RemoveSchemeIsSubsequence(a);
      RemoveHandlersIsSubsequence(u);
      SubsequenceTrans(c, u, a);
      SanitizedShape(s, a, c);
      Truncate(c)
  }

  /**
   * The corrected sanitiser: the two removals are repeated until neither
   * finds anything, so that no "javascript:" and no `on…=` can be left over
   * by joining the text around a removed occurrence.
   */
  function SanitizeInputFixed(input: Input): (r: string)
    ensures |r| <= 1000
    ensures forall k :: 0 <= k < |r| ==> r[k] != '<' && r[k] != '>'
    ensures input.StringInput? ==> IsSubsequence(r, input.s)
    ensures input.OtherInput? ==> r == ""
    ensures forall i :: !SchemeAt(r, i)
    ensures forall i, j :: !HandlerAt(r, i, j)
  {
    match input
    case OtherInput => ""
    case StringInput(s) =>
      var a := StripAngles(Trim(s));
      var c := Scrub(a);
      ScrubIsSubsequence(a);
      SanitizedShape(s, a, c);
      ScrubClean(a);
      TruncateKeepsClean(c);
      Truncate(c)
  }

  /** Both removals, repeated until they change nothing. */
  function Scrub(s: string): (r: string)
    decreases |s|
  {
    var t := RemoveHandlers(RemoveScheme(s));
    if |t| == |s| then s else Scrub(t)
  }

  /** A text cut from what the removals leave of `a`, the bracket-free trimmed input, keeps the sanitiser's promises. */
  lemma SanitizedShape(s: string, a: string, c: string)
    requires a == StripAngles(Trim(s))
    requires IsSubsequence(c, a)
    ensures forall k :: 0 <= k < |Truncate(c)| ==> Truncate(c)[k] != '<' && Truncate(c)[k] != '>'
    ensures IsSubsequence(Truncate(c), s)
  {
    var t := Trim(s);
    var r := Truncate(c);
    TrimIsSubsequence(s);
    StripAnglesShape(t);
    PrefixIsSubsequence(c, |r|);
    SubsequenceTrans(r, c, a);
    NoAnglesInSubsequence(r, a);
    SubsequenceTrans(r, a, t);
    SubsequenceTrans(r, t, s);
  }

  /** Cutting a text short cannot create either pattern. */
  lemma TruncateKeepsClean(c: string)
    requires forall i :: !SchemeAt(c, i)
    requires forall i, j :: !HandlerAt(c, i, j)
    ensures forall i :: !SchemeAt(Truncate(c), i)
    ensures forall i, j :: !HandlerAt(Truncate(c), i, j)
  {
    var r := Truncate(c);
    forall i | 0 <= i <= |r| - |Scheme| ensures !SchemeAt(r, i) {
      assert r[i..i + |Scheme|] == c[i..i + |Scheme|];
      assert !SchemeAt(c, i);
    }
    assert forall i, j :: HandlerAt(r, i, j) ==> HandlerAt(c, i, j);
  }

  lemma TrimIsSubsequence(s: string)
    ensures IsSubsequence(Trim(s), s)
  {
    var i := LeadingBlanks(s);
    InfixIsSubsequence(s, i, i + |Trim(s)|);
  }

  lemma StripAnglesShape(t: string)
    ensures IsSubsequence(StripAngles(t), t)
    ensures forall k :: 0 <= k < |StripAngles(t)| ==> StripAngles(t)[k] != '<' && StripAngles(t)[k] != '>'
  {
    WhereIsSubsequence(t, (ch: char) => ch != '<' && ch != '>');
    var a := StripAngles(t);
    forall k | 0 <= k < |a| ensures a[k] != '<' && a[k] != '>' {
      assert a[k] in a;
    }
  }

  lemma NoAnglesInSubsequence(r: string, a: string)
    requires IsSubsequence(r, a)
    requires forall k :: 0 <= k < |a| ==> a[k] != '<' && a[k] != '>'
    ensures forall k :: 0 <= k < |r| ==> r[k] != '<' && r[k] != '>'
  {
    forall k | 0 <= k < |r| ensures r[k] != '<' && r[k] != '>' {
      assert r[k] in r;
      SubsequenceMembers(r, a, r[k]);
    }
  }

  // ---------------------------------------------------------------------------
  // Facts about the removals

  lemma {:induction false} DropIsSubsequence<T>(t: seq<T>, s: seq<T>, k: nat)
    requires k <= |s| && IsSubsequence(t, s[k..])
    ensures IsSubsequence(t, s)
    decreases k
  {
    if k > 0 {
      assert s[1..][k - 1..] == s[k..];
      DropIsSubsequence(t, s[1..], k - 1);
      SubsequenceSkip(t, s);
    }
  }

  lemma {:induction false} PrefixIsSubsequence<T>(s: seq<T>, n: nat)
    requires n <= |s|
    ensures IsSubsequence(s[..n], s)
    decreases |s|
  {
    if n > 0 {
      assert s[..n][1..] == s[1..][..n - 1];
      PrefixIsSubsequence(s[1..], n - 1);
    }
  }

  lemma InfixIsSubsequence<T>(s: seq<T>, i: nat, j: nat)
    requires i <= j <= |s|
    ensures IsSubsequence(s[i..j], s)
  {
    PrefixIsSubsequence(s[i..], j - i);
    assert s[i..][..j - i] == s[i..j];
    DropIsSubsequence(s[i..j], s, i);
  }

  lemma {:induction false} SubsequenceTrans<T>(a: seq<T>, b: seq<T>, c: seq<T>)
    requires IsSubsequence(a, b) && IsSubsequence(b, c)
    ensures IsSubsequence(a, c)
    decreases |c|
  {
    if a != [] {
      if b[0] == c[0] {
        if a[0] == b[0] {
          SubsequenceTrans(a[1..], b[1..], c[1..]);
        } else {
          SubsequenceTrans(a, b[1..], c[1..]);
          SubsequenceSkip(a, c);
        }
      } else {
        SubsequenceTrans(a, b, c[1..]);
        SubsequenceSkip(a, c);
      }
    }
  }

  lemma {:induction false} SubsequenceMembers<T>(t: seq<T>, s: seq<T>, x: T)
    requires IsSubsequence(t, s) && x in t
    ensures x in s
    decreases |s|
  {
    if t[0] == s[0] {
      if x != t[0] {
        assert x in t[1..];
        SubsequenceMembers(t[1..], s[1..], x);
      }
    } else {
      SubsequenceMembers(t, s[1..], x);
    }
  }

  lemma {:induction false} RemoveSchemeIsSubsequence(s: string)
    ensures IsSubsequence(RemoveScheme(s), s)
    decreases |s|
  {
    if |s| < |Scheme| {
      SubsequenceRefl(s);
    } else if SchemeAt(s, 0) {
      RemoveSchemeIsSubsequence(s[|Scheme|..]);
      DropIsSubsequence(RemoveScheme(s), s, |Scheme|);
    } else {
      RemoveSchemeIsSubsequence(s[1..]);
    }
  }

  lemma {:induction false} RemoveHandlersIsSubsequence(s: string)
    ensures IsSubsequence(RemoveHandlers(s), s)
    decreases |s|
  {
    if s != [] {
      var m := HandlerLength(s);
      if m > 0 {
        RemoveHandlersIsSubsequence(s[m..]);
        DropIsSubsequence(RemoveHandlers(s), s, m);
      } else {
        RemoveHandlersIsSubsequence(s[1..]);
      }
    }
  }

  lemma {:induction false} ScrubIsSubsequence(s: string)
    ensures IsSubsequence(Scrub(s), s)
    decreases |s|
  {
    var u := RemoveScheme(s);
    var t := RemoveHandlers(u);
    if |t| == |s| {
      SubsequenceRefl(s);
    } else {
      ScrubIsSubsequence(t);
      RemoveSchemeIsSubsequence(s);
      RemoveHandlersIsSubsequence(u);
      SubsequenceTrans(t, u, s);
      SubsequenceTrans(Scrub(t), t, s);
    }
  }

  /** A text that one scheme pass leaves unchanged holds no "javascript:". */
  lemma {:induction false} SchemeFreeAtFixpoint(s: string)
    requires RemoveScheme(s) == s
    ensures forall i :: !SchemeAt(s, i)
    decreases |s|
  {
    if |s| >= |Scheme| {
      var t := s[1..];
      if SchemeAt(s, 0) {
        assert false;
      }
      assert RemoveScheme(t) == t;
      SchemeFreeAtFixpoint(t);
      forall i ensures !SchemeAt(s, i) {
        if 1 <= i <= |s| - |Scheme| {
          assert !SchemeAt(t, i - 1);
          assert t[i - 1..i - 1 + |Scheme|] == s[i..i + |Scheme|];
        }
      }
    }
  }

  /** An `on…=` span at the start of `s` is what `HandlerLength` finds. */
  lemma HandlerFound(s: string, j: int)
    ensures HandlerAt(s, 0, j) ==> HandlerLength(s) == j + 1
  {
    if HandlerAt(s, 0, j) {
      var t := s[2..];
      var n := WordRun(t);
      assert forall k :: 0 <= k < j - 2 ==> t[k] == s[k + 2];
    }
  }

  /** An `on…=` span after the first character is one of the rest of the text. */
  lemma HandlerShift(s: string, i: int, j: int)
    requires 1 <= i
    ensures HandlerAt(s, i, j) ==> HandlerAt(s[1..], i - 1, j - 1)
  {
    if HandlerAt(s, i, j) {
      assert forall k :: i + 2 <= k < j ==> s[1..][k - 1] == s[k];
    }
  }

  /** A text that one handler pass leaves unchanged holds no `on…=`. */
  lemma {:induction false} HandlerFreeAtFixpoint(s: string)
    requires RemoveHandlers(s) == s
    ensures forall i, j :: !HandlerAt(s, i, j)
    decreases |s|
  {
    if s != [] {
      assert HandlerLength(s) == 0;
      forall j ensures !HandlerAt(s, 0, j) {
        HandlerFound(s, j);
      }
      assert RemoveHandlers(s[1..]) == s[1..];
      HandlerFreeAtFixpoint(s[1..]);
      forall i, j | 1 <= i ensures !HandlerAt(s, i, j) {
        HandlerShift(s, i, j);
      }
    }
  }

  /** What `Scrub` returns holds neither pattern. */
  lemma {:induction false} ScrubClean(s: string)
    ensures forall i :: !SchemeAt(Scrub(s), i)
    ensures forall i, j :: !HandlerAt(Scrub(s), i, j)
    decreases |s|
  {
    var u := RemoveScheme(s);
    var t := RemoveHandlers(u);
    if |t| == |s| {
      assert u == s;
      SchemeFreeAtFixpoint(s);
      HandlerFreeAtFixpoint(s);
    } else {
      ScrubClean(t);
    }
  }

  /**
   * The single pass of the sanitiser as written rebuilds the scheme it
   * removes: with "javascript:" (in any letter case) put inside a copy of
   * itself after "java", as in "javajavascript:script:", the occurrence
   * found is removed and the text around it joins to "javascript:" again.
   */
  lemma SchemeSurvivesSinglePass(w: string)
    requires IsScheme(w)
    ensures SanitizeInput(StringInput(w[..4] + w + w[4..])) == w
  {
    NestedIsPlain(w);
    SinglePassJoins(w);
    NoHandlerInScheme(w);
  }

  lemma SchemeStartsScheme(w: string)
    requires IsScheme(w)
    ensures SchemeAt(w, 0)
  {
    assert w[..|Scheme|] == w;
  }

  lemma NoHandlerInScheme(w: string)
    requires IsScheme(w)
    ensures RemoveHandlers(w) == w
  {
    SchemeHasNoO(w);
    NoHandlerIn(w);
  }

  lemma SchemeHasNoO(w: string)
    requires IsScheme(w)
    ensures forall k :: 0 <= k < |w| ==> LowerChar(w[k]) != 'o' && w[k] != '<' && w[k] != '>' && !IsJsWhitespace(w[k])
  {
    forall k | 0 <= k < |w| ensures LowerChar(w[k]) != 'o' && w[k] != '<' && w[k] != '>' && !IsJsWhitespace(w[k]) {
      if k < 10 {
        assert LowerChar(w[k]) in "javascript";
        FoldsToLetter(w[k]);
      }
    }
  }

  /** A character that lower-cases to an ASCII letter is itself one. */
  lemma FoldsToLetter(ch: char)
    requires IsAsciiLower(LowerChar(ch))
    ensures IsAsciiLetter(ch)
  {
  }

  /** Trimming and bracket removal leave the nested text as it is. */
  lemma NestedIsPlain(w: string)
    requires IsScheme(w)
    ensures StripAngles(Trim(w[..4] + w + w[4..])) == w[..4] + w + w[4..]
  {
    var s := w[..4] + w + w[4..];
    SchemeHasNoO(w);
    forall k | 0 <= k < |s| ensures s[k] != '<' && s[k] != '>' && !IsJsWhitespace(s[k]) {
      assert s[k] in w;
    }
    assert TrimStart(s) == s && TrimEnd(s) == s;
    NoAnglesKept(s);
  }

  /** The scheme pass over the nested text removes the inner occurrence and leaves the outer one. */
  lemma SinglePassJoins(w: string)
    requires IsScheme(w)
    ensures RemoveScheme(w[..4] + w + w[4..]) == w
  {
    var s := w[..4] + w + w[4..];
    assert s[4..] == w + w[4..];
    SchemeThenRest(w, w[4..]);
    assert RemoveScheme(s[4..]) == w[4..];
    assert s[3..][1..] == s[4..] && s[2..][1..] == s[3..] && s[1..][1..] == s[2..];
    NotSchemeStep(s[3..], 0);
    assert RemoveScheme(s[3..]) == [w[3]] + w[4..];
    NotSchemeStep(s[2..], 0);
    assert RemoveScheme(s[2..]) == [w[2]] + ([w[3]] + w[4..]);
    NotSchemeStep(s[1..], 0);
    assert RemoveScheme(s[1..]) == [w[1]] + ([w[2]] + ([w[3]] + w[4..]));
    NotSchemeStep(s, 4);
    assert w == [w[0]] + ([w[1]] + ([w[2]] + ([w[3]] + w[4..])));
  }

  /** A scheme at the front is dropped and the pass goes on after it. */
  lemma SchemeThenRest(w: string, t: string)
    requires IsScheme(w)
    ensures RemoveScheme(w + t) == RemoveScheme(t)
  {
    assert (w + t)[..|Scheme|] == w && (w + t)[|Scheme|..] == t;
  }

  /** A text whose first eleven characters differ from the scheme at index `i` keeps its first character. */
  lemma NotSchemeStep(s: string, i: nat)
    requires |s| >= |Scheme| && i < |Scheme| && LowerChar(s[i]) != Scheme[i]
    ensures RemoveScheme(s) == [s[0]] + RemoveScheme(s[1..])
  {
    assert s[..|Scheme|][i] == s[i];
  }

  lemma {:induction false} NoAnglesKept(s: string)
    requires forall k :: 0 <= k < |s| ==> s[k] != '<' && s[k] != '>'
    ensures StripAngles(s) == s
    decreases |s|
  {
    if s != [] {
      NoAnglesKept(s[1..]);
      assert s == [s[0]] + s[1..];
    }
  }

  lemma {:induction false} NoHandlerIn(s: string)
    requires forall k :: 0 <= k < |s| ==> LowerChar(s[k]) != 'o'
    ensures RemoveHandlers(s) == s
    decreases |s|
  {
    if s != [] {
      NoHandlerIn(s[1..]);
      assert s == [s[0]] + s[1..];
    }
  }

  // ---------------------------------------------------------------------------
  // E-mail and phone checks

  /** `isValidEmail`: the e-mail expression, and at most 254 characters. */
  function IsValidEmail(email: string): (b: bool)
    ensures b ==> |email| <= 254
  {
    MatchesEmail(email) && |email| <= 254
  }

  /** An address passes iff it has the one-'@' shape and at most 254 characters. */
  lemma ValidEmailIffShaped(email: string)
    ensures IsValidEmail(email) <==> EmailShaped(email) && |email| <= 254
  {
    EmailAcceptedIffShaped(email);
  }

  /** `isValidPhoneNumber`: the same Egyptian mobile expression as the form schema. */
  function IsValidPhoneNumber(phone: string): bool {
    MatchesPhone(phone)
  }

  /** The phone check here and a guardian's phone rule in the form schema accept the same numbers. */
  lemma PhoneChecksAgree(p: Validation.Parent, phone: string)
    ensures IsValidPhoneNumber(phone) <==> Validation.PhoneIssues(p, phone) == []
  {
    Validation.PhoneNonEmpty(phone);
  }

  /**
   * An address the form schema accepts passes the e-mail check here unless
   * it is longer than 254 characters, and the check here only accepts
   * addresses that satisfy the schema's own expression.
   */
  lemma EmailChecksAgree(ctx: Validation.Context, p: Validation.Parent, email: string)
    ensures Validation.EmailIssues(ctx, p, email) == [] && |email| <= 254 ==> IsValidEmail(email)
    ensures IsValidEmail(email) ==> MatchesEmail(email)
  {
  }

  // ---------------------------------------------------------------------------
  // Password strength

  predicate HasLower(p: string) { exists i | 0 <= i < |p| :: IsAsciiLower(p[i]) }
  predicate HasUpper(p: string) { exists i | 0 <= i < |p| :: IsAsciiUpper(p[i]) }
  predicate HasDigit(p: string) { exists i | 0 <= i < |p| :: IsDigit(p[i]) }

  /** `/[^A-Za-z0-9]/`: a character that is neither an ASCII letter nor a digit. */
  predicate HasSpecial(p: string) { exists i | 0 <= i < |p| :: !IsAsciiLetter(p[i]) && !IsDigit(p[i]) }

  /** The five criteria, in the order they are scored. */
  function Criteria(p: string): (c: seq<bool>)
    ensures |c| == 5
  {
    [|p| >= 8, HasLower(p), HasUpper(p), HasDigit(p), HasSpecial(p)]
  }

  /** The advice given for each criterion that is not met, in the same order. */
  const Advice: seq<string> := [
    "Password must be at least 8 characters long",
    "Include at least one lowercase letter",
    "Include at least one uppercase letter",
    "Include at least one number",
    "Include at least one special character"]

  const StrongMessage: string := "Strong password!"

  /** The number of criteria met among the first `k`. */
  function CountMet(c: seq<bool>, k: nat): (n: nat)
    requires k <= |c|
    ensures n <= k
  {
    if k == 0 then 0 else CountMet(c, k - 1) + (if c[k - 1] then 1 else 0)
  }

  /** The messages of `m` whose criterion in `c` fails, among the first `k`, in order. */
  function Missed(c: seq<bool>, m: seq<string>, k: nat): (r: seq<string>)
    requires k <= |c| == |m|
    ensures |r| <= k
  {
    if k == 0 then [] else Missed(c, m, k - 1) + (if c[k - 1] then [] else [m[k - 1]])
  }

  datatype StrengthReport = StrengthReport(isValid: bool, score: int, feedback: seq<string>)

  /**
   * `validatePasswordStrength`: the score counts the criteria met, one piece
   * of advice stands for each criterion missed, in order, and a password
   * meeting all five is told "Strong password!"; four criteria make it valid.
   */
  method ValidatePasswordStrength(password: string) returns (report: StrengthReport)
    ensures report.score == CountMet(Criteria(password), 5)
    ensures report.feedback == if Missed(Criteria(password), Advice, 5) == [] then [StrongMessage]
                               else Missed(Criteria(password), Advice, 5)
    ensures report.isValid <==> report.score >= 4
  {
    // The five tests, in order: length, lower case, upper case, digit, special character.
    var c := Criteria(password);
    var feedback: seq<string> := [];
    var score := 0;

    if !c[0] {
      feedback := feedback + [Advice[0]];
    } else {
      score := score + 1;
    }
    assert feedback == Missed(c, Advice, 1) && score == CountMet(c, 1);
    if c[1] { score := score + 1; } else { feedback := feedback + [Advice[1]]; }
    assert feedback == Missed(c, Advice, 2) && score == CountMet(c, 2);
    if c[2] { score := score + 1; } else { feedback := feedback + [Advice[2]]; }
    assert feedback == Missed(c, Advice, 3) && score == CountMet(c, 3);
    if c[3] { score := score + 1; } else { feedback := feedback + [Advice[3]]; }
    assert feedback == Missed(c, Advice, 4) && score == CountMet(c, 4);
    if c[4] { score := score + 1; } else { feedback := feedback + [Advice[4]]; }

    report := StrengthReport(score >= 4, score, if |feedback| > 0 then feedback else [StrongMessage]);
  }

  /** Each criterion either scores or is advised on: the advice and the score always add up to the number judged. */
  lemma {:induction false} MissedAndScore(c: seq<bool>, m: seq<string>, k: nat)
    requires k <= |c| == |m|
    ensures |Missed(c, m, k)| + CountMet(c, k) == k
  {
    if k > 0 { MissedAndScore(c, m, k - 1); }
  }

  /** Only messages of the judged criteria are given. */
  lemma {:induction false} MissedFromMessages(c: seq<bool>, m: seq<string>, k: nat, x: string)
    requires k <= |c| == |m|
    ensures x in Missed(c, m, k) ==> x in m[..k]
  {
    if k > 0 {
      MissedFromMessages(c, m, k - 1, x);
      assert m[..k] == m[..k - 1] + [m[k - 1]];
    }
  }

  /** With distinct messages, a criterion's message is given iff the criterion fails. */
  lemma {:induction false} AdviceIffFailed(c: seq<bool>, m: seq<string>, n: nat, k: nat)
    requires n <= |c| == |m| && k < n
    requires forall a, b :: 0 <= a < b < |m| ==> m[a] != m[b]
    ensures m[k] in Missed(c, m, n) <==> !c[k]
  {
    if k == n - 1 {
      MissedFromMessages(c, m, k, m[k]);
      assert m[k] !in m[..k];
    } else {
      AdviceIffFailed(c, m, n - 1, k);
      assert m[k] != m[n - 1];
    }
  }

  /**
   * The score lies in 0..5; the report says "Strong password!" exactly when
   * all five criteria are met; otherwise the advice lists exactly the
   * criteria that are missed, and a password is valid iff it misses at most one.
   */
  lemma StrengthFeedback(p: string)
    ensures 0 <= CountMet(Criteria(p), 5) <= 5
    ensures Missed(Criteria(p), Advice, 5) == [] <==> CountMet(Criteria(p), 5) == 5
    ensures forall k :: 0 <= k < 5 ==> (Advice[k] in Missed(Criteria(p), Advice, 5) <==> !Criteria(p)[k])
    ensures StrongMessage !in Missed(Criteria(p), Advice, 5)
    ensures CountMet(Criteria(p), 5) >= 4 <==> |Missed(Criteria(p), Advice, 5)| <= 1
  {
    MissedAndScore(Criteria(p), Advice, 5);
    MissedFromMessages(Criteria(p), Advice, 5, StrongMessage);
    assert Advice[..5] == Advice;
    forall k | 0 <= k < 5 ensures Advice[k] in Missed(Criteria(p), Advice, 5) <==> !Criteria(p)[k] {
      AdviceIffFailed(Criteria(p), Advice, 5, k);
    }
  }

  // ---------------------------------------------------------------------------
  // CSRF tokens

  /** The set of tokens handed out and not yet used or expired. */
  class CsrfProtection {
    var tokens: set<string>

    constructor ()
      ensures tokens == {}
    {
      tokens := {};
    }

    /** `generateToken` with its random text supplied: the token becomes valid. */
    method GenerateToken(candidate: string) returns (token: string)
      modifies this
      ensures token == candidate
      ensures tokens == old(tokens) + {token}
    {
      token := candidate;
      tokens := tokens + {token};
    }

    /** The one-hour timer set by `generateToken` firing for `token`. */
    method ExpireToken(token: string)
      modifies this
      ensures tokens == old(tokens) - {token}
    {
      tokens := tokens - {token};
    }

    /** `validateToken`: true only for a valid token, which is then used up; a second validation of it fails. */
    method ValidateToken(token: string) returns (valid: bool)
      modifies this
      ensures valid <==> token in old(tokens)
      ensures tokens == old(tokens) - {token}
      ensures token !in tokens
    {
      valid := token in tokens;
      if valid {
        tokens := tokens - {token};
      }
    }
  }

  // ---------------------------------------------------------------------------
  // Session manager

  const SessionKey: string := "rajac_session"
  const SessionDuration: int := 24 * 60 * 60 * 1000

  /** What `getSession` returns, and the store it leaves behind. */
  datatype SessionRead = SessionRead(session: Option<ManagedSession>, entries: map<string, StoredValue>)

  /**
   * `getSession` at time `now`: a stored session record is returned until
   * its expiry time and removed once `now` is past it; a missing key, or
   * text that is not a session record, gives null and changes nothing.
   */
  function ReadSession(entries: map<string, StoredValue>, now: int): SessionRead {
    if SessionKey in entries && entries[SessionKey].SessionRecord? then
      var s := entries[SessionKey].session;
      if now > s.expiresAt then SessionRead(None, entries - {SessionKey})
      else SessionRead(Some(s), entries)
    else SessionRead(None, entries)
  }

  /** The record `createSession` writes when the clock reads `now`. */
  function NewSession(userId: string, userType: UserType, now: int, token: string): (s: ManagedSession)
    ensures s.expiresAt == s.createdAt + SessionDuration
  {
    ManagedSession(userId, userType, now, now + SessionDuration, token)
  }

  /** `createSession`; a failing `setItem` is caught and leaves the store as it was. */
  method CreateSession(store: KeyValueStore, userId: string, userType: UserType, now: int, token: string, setItemFails: bool)
    modifies store
    ensures setItemFails ==> store.entries == old(store.entries)
    ensures !setItemFails ==>
      store.entries == old(store.entries)[SessionKey := SessionRecord(NewSession(userId, userType, now, token))]
  {
    if !setItemFails {
      store.SetItem(SessionKey, SessionRecord(NewSession(userId, userType, now, token)));
    }
  }

  /** `clearSession`; a failing `removeItem` is caught and leaves the store as it was. */
  method ClearSession(store: KeyValueStore, removeItemFails: bool)
    modifies store
    ensures removeItemFails ==> store.entries == old(store.entries)
    ensures !removeItemFails ==> store.entries == old(store.entries) - {SessionKey}
  {
    if !removeItemFails {
      store.RemoveItem(SessionKey);
    }
  }

  /**
   * `getSession`. A failing `getItem` is caught: null, and nothing changes.
   * An expired session reads as null either way; when the `removeItem` of
   * `clearSession` fails, its key stays.
   */
  method GetSession(store: KeyValueStore, now: int, getItemFails: bool, removeItemFails: bool)
    returns (session: Option<ManagedSession>)
    modifies store
    ensures getItemFails ==> session == None
    ensures !getItemFails ==> session == ReadSession(old(store.entries), now).session
    ensures getItemFails || removeItemFails ==> store.entries == old(store.entries)
    ensures !getItemFails && !removeItemFails ==> store.entries == ReadSession(old(store.entries), now).entries
  {
    if getItemFails {
      return None;
    }
    var data := store.GetItem(SessionKey);
    if data.None? || !data.value.SessionRecord? {
      return None;
    }
    var s := data.value.session;
    if now > s.expiresAt {
      ClearSession(store, removeItemFails);
      return None;
    }
    return Some(s);
  }

  /** `isSessionValid`: `getSession` returned a session. */
  method IsSessionValid(store: KeyValueStore, now: int, getItemFails: bool, removeItemFails: bool)
    returns (valid: bool)
    modifies store
    ensures valid <==> !getItemFails && ReadSession(old(store.entries), now).session.Some?
    ensures getItemFails || removeItemFails ==> store.entries == old(store.entries)
    ensures !getItemFails && !removeItemFails ==> store.entries == ReadSession(old(store.entries), now).entries
  {
    var s := GetSession(store, now, getItemFails, removeItemFails);
    valid := s.Some?;
  }

  /**
   * A session created at `now` is returned, unchanged, at every time up to
   * 24 hours later, and from then on it is gone: the read returns null and
   * removes the key, every other key staying as it was.
   */
  lemma SessionLifetime(entries: map<string, StoredValue>, userId: string, userType: UserType, now: int, token: string, t: int)
    ensures var e := entries[SessionKey := SessionRecord(NewSession(userId, userType, now, token))];
      var r := ReadSession(e, t);
      && (t <= now + SessionDuration ==> r.session == Some(NewSession(userId, userType, now, token)) && r.entries == e)
      && (t > now + SessionDuration ==>
            && r.session == None && SessionKey !in r.entries
            && (forall k :: k != SessionKey ==> (k in r.entries <==> k in entries)))
  {
  }

  /** A read never touches any key but the session key. */
  lemma ReadSessionKeepsOtherKeys(entries: map<string, StoredValue>, now: int, k: string)
    requires k != SessionKey
    ensures k in ReadSession(entries, now).entries <==> k in entries
    ensures k in entries ==> ReadSession(entries, now).entries[k] == entries[k]
  {
  }
}
