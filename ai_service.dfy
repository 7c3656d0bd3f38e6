/**
 * The analyzer's caller-side policy: the deterministic extractor of an email
 * or a name, the fallback analysis used whenever the completion provider
 * fails, and the rewrapping of handler errors into fixed apologies.
 */
module AIService {
  import opened Wrappers
  import opened Text

  /** The analyzer's answer; parsed provider output is not schema-checked, so fields may be missing. */
  datatype Analysis = Analysis(
    nextNodeId: Option<string>,
    userInputs: map<string, string>,
    confidence: real,
    suggestedResponse: Option<string>)

  const AnalysisApology := "I apologize, but I encountered an issue. How can I help you?"
  const DemoApology := "I apologize, but I encountered an issue scheduling the demo."
  const ProductApology := "I apologize, but I encountered an issue retrieving product details."

  predicate IsAsciiLetter(c: char) {
    'a' <= c <= 'z' || 'A' <= c <= 'Z'
  }

  predicate IsDigit(c: char) {
    '0' <= c <= '9'
  }

  /** `[a-zA-Z0-9._%+-]` */
  predicate IsLocalChar(c: char) {
    IsAsciiLetter(c) || IsDigit(c) || c == '.' || c == '_' || c == '%' || c == '+' || c == '-'
  }

  /** `[a-zA-Z0-9.-]` */
  predicate IsDomainChar(c: char) {
    IsAsciiLetter(c) || IsDigit(c) || c == '.' || c == '-'
  }

  /**
   * `m` splits as `local@domain.tld` at the `@` index `a` and the dot index `d`,
   * as `/[a-zA-Z0-9._%+-]+@[a-zA-Z0-9.-]+\.[a-zA-Z]{2,}/` requires.
   */
  predicate EmailSplit(m: string, a: int, d: int) {
    0 < a && a + 2 <= d && d + 3 <= |m| && m[a] == '@' && m[d] == '.'
    && (forall k :: 0 <= k < a ==> IsLocalChar(m[k]))
    && (forall k :: a < k < d ==> IsDomainChar(m[k]))
    && (forall k :: d < k < |m| ==> IsAsciiLetter(m[k]))
  }

  ghost predicate EmailShaped(m: string) {
    exists a, d :: EmailSplit(m, a, d)
  }

  /** Some slice of `s` is email-shaped. */
  ghost predicate HasEmailSubstring(s: string) {
    exists i, j :: 0 <= i <= j <= |s| && EmailShaped(s[i..j])
  }

  /** A dot at `d` followed by two letters: where `\.[a-zA-Z]{2,}` can match. */
  predicate TldAt(s: string, d: int) {
    0 <= d && d + 3 <= |s| && s[d] == '.' && IsAsciiLetter(s[d + 1]) && IsAsciiLetter(s[d + 2])
  }

  /**
   * Backtracking out of the greedy domain run: the last index in `[lo, hi)` where
   * the top-level part can start.
   */
  function LastTld(s: string, lo: nat, hi: nat): (r: Option<nat>)
    requires hi <= |s|
    ensures r.Some? ==> lo <= r.value < hi && TldAt(s, r.value)
    ensures r.Some? ==> forall k :: r.value < k < hi ==> !TldAt(s, k)
    ensures r.None? ==> forall k :: lo <= k < hi ==> !TldAt(s, k)
    decreases hi
  {
    if hi <= lo then None
    else if TldAt(s, hi - 1) then Some(hi - 1)
    else LastTld(s, lo, hi - 1)
  }

  /**
   * The end of the match the email pattern makes when it starts at index `i`: the
   * local run must stop at `@`, the domain run backtracks to the last dot that is
   * followed by two letters, and the letters after it are taken greedily.
   */
  function MatchAt(s: string, i: nat): (r: Option<nat>)
    requires i <= |s|
    ensures r.Some? ==> i < r.value <= |s|
  {
    if i == |s| || !IsLocalChar(s[i]) then None
    else
      var a := Span(s, i, IsLocalChar);
      if a == |s| || s[a] != '@' then None
      else
        var e := Span(s, a + 1, IsDomainChar);
        match LastTld(s, a + 2, e)
        case None => None
        case Some(d) => Some(Span(s, d + 1, IsAsciiLetter))
  }

  /** Whatever the pattern matches is email-shaped. */
  lemma MatchAtSound(s: string, i: nat)
    requires i <= |s| && MatchAt(s, i).Some?
    ensures EmailShaped(s[i..MatchAt(s, i).value])
  {
    var a := Span(s, i, IsLocalChar);
    var e := Span(s, a + 1, IsDomainChar);
    var d := LastTld(s, a + 2, e).value;
    var j := Span(s, d + 1, IsAsciiLetter);
    var m := s[i..j];
    assert j >= d + 3;
    assert forall k :: 0 <= k < a - i ==> m[k] == s[i + k];
    assert forall k :: a - i < k < d - i ==> m[k] == s[i + k];
    assert forall k :: d - i < k < |m| ==> m[k] == s[i + k];
    assert EmailSplit(m, a - i, d - i);
  }

  /** An email-shaped slice `s[i..j]`, read off in `s` itself. */
  lemma SplitInPlace(s: string, i: nat, j: nat, a: int, d: int)
    requires i <= j <= |s| && EmailSplit(s[i..j], a, d)
    ensures forall k :: i <= k < i + a ==> IsLocalChar(s[k])
    ensures s[i + a] == '@' && i + a + 2 <= i + d && i + d + 3 <= j
    ensures forall k :: i + a < k <= i + d ==> IsDomainChar(s[k])
    ensures forall k :: i + d < k < j ==> IsAsciiLetter(s[k])
  {
    var m := s[i..j];
    assert forall k :: 0 <= k < |m| ==> m[k] == s[i + k];
    assert forall k :: i <= k < j ==> s[k] == m[k - i];
  }

  /** Wherever an email-shaped slice starts, the pattern matches there. */
  lemma MatchAtComplete(s: string, i: nat, j: nat, a: int, d: int)
    requires i <= j <= |s| && EmailSplit(s[i..j], a, d)
    ensures MatchAt(s, i).Some?
  {
    SplitInPlace(s, i, j, a, d);
    SpanIs(s, i, i + a, IsLocalChar);
    var e := Span(s, i + a + 1, IsDomainChar);
    assert e > i + d;
    assert TldAt(s, i + d);
  }

  /**
   * The pattern's match from `i` reaches at least as far as any email-shaped
   * slice starting there: the domain run backs off only to the last usable dot.
   */
  lemma MatchAtLongest(s: string, i: nat, j: nat, a: int, d: int)
    requires i <= j <= |s| && EmailSplit(s[i..j], a, d)
    ensures MatchAt(s, i).Some? && j <= MatchAt(s, i).value
  {
    MatchAtComplete(s, i, j, a, d);
    SplitInPlace(s, i, j, a, d);
    SpanIs(s, i, i + a, IsLocalChar);
    var e := Span(s, i + a + 1, IsDomainChar);
    assert e > i + d && TldAt(s, i + d);
    var top := LastTld(s, i + a + 2, e).value;
    assert i + d <= top;
    var stop := Span(s, top + 1, IsAsciiLetter);
    assert MatchAt(s, i) == Some(stop);
    if i + d < top {
      assert !IsAsciiLetter(s[top]);
    }
  }

  /** The leftmost match at or after index `i`, as a start and an end. */
  function EmailFrom(s: string, i: nat): (r: Option<(nat, nat)>)
    requires i <= |s|
    ensures r.Some? ==> i <= r.value.0 <= |s| && MatchAt(s, r.value.0) == Some(r.value.1)
    ensures r.Some? ==> forall k :: i <= k < r.value.0 ==> MatchAt(s, k).None?
    ensures r.None? ==> forall k :: i <= k <= |s| ==> MatchAt(s, k).None?
    decreases |s| - i
  {
    match MatchAt(s, i)
    case Some(e) => Some((i, e))
    case None => if i == |s| then None else EmailFrom(s, i + 1)
  }

  /** `message.match(emailRegex)?.[0]`: the leftmost email-shaped match. */
  function FirstEmail(s: string): Option<string> {
    match EmailFrom(s, 0)
    case None => None
    case Some((p, e)) => Some(s[p..e])
  }

  /**
   * `m` is what a leftmost, then longest, search for an email-shaped slice of
   * `s` finds: it sits at some index `p`, no email-shaped slice starts before
   * `p`, and none starting at `p` is longer.
   */
  ghost predicate LeftmostLongest(s: string, m: string) {
    exists p :: && OccursAt(s, m, p)
                && (forall i, j :: 0 <= i < p && i <= j <= |s| ==> !EmailShaped(s[i..j]))
                && (forall j :: p + |m| < j <= |s| ==> !EmailShaped(s[p..j]))
  }

  /**
   * The extractor finds an email exactly when the message has an email-shaped
   * slice; what it finds is email-shaped and is the leftmost, then longest,
   * such slice.
   */
  lemma FirstEmailCorrect(s: string)
    ensures FirstEmail(s).Some? <==> HasEmailSubstring(s)
    ensures FirstEmail(s).Some? ==> EmailShaped(FirstEmail(s).value) && Contains(s, FirstEmail(s).value)
    ensures FirstEmail(s).Some? ==> LeftmostLongest(s, FirstEmail(s).value)
  {
    match EmailFrom(s, 0)
    case None =>
      forall i, j | 0 <= i <= j <= |s| && EmailShaped(s[i..j]) ensures false {
        var a, d :| EmailSplit(s[i..j], a, d);
        MatchAtComplete(s, i, j, a, d);
      }
    case Some((p, e)) =>
      MatchAtSound(s, p);
      SliceContained(s, p, e);
      assert OccursAt(s, s[p..e], p);
      forall i, j | 0 <= i < p && i <= j <= |s| && EmailShaped(s[i..j]) ensures false {
        var a, d :| EmailSplit(s[i..j], a, d);
        MatchAtComplete(s, i, j, a, d);
      }
      forall j | p + (e - p) < j <= |s| && EmailShaped(s[p..j]) ensures false {
        var a, d :| EmailSplit(s[p..j], a, d);
        MatchAtLongest(s, p, j, a, d);
      }
  }

  /**
   * `extractBasicUserInputs`: the first email if there is one, otherwise the
   * trimmed message as a name when it is not blank, otherwise nothing.
   */
  function ExtractBasicUserInputs(message: string): map<string, string> {
    match FirstEmail(message)
    case Some(m) => map["email" := m]
    case None => if Trim(message) != "" then map["name" := Trim(message)] else map[]
  }

  /**
   * The extracted record holds exactly `{email}` when the message has an
   * email-shaped slice (the leftmost, then longest, one), exactly `{name: trimmed message}` when it has none and is
   * not blank, and nothing for a blank message; never both keys.
   */
  lemma ExtractedFields(message: string)
    ensures var r := ExtractBasicUserInputs(message);
      && ("email" in r <==> HasEmailSubstring(message))
      && ("email" in r ==> r.Keys == {"email"} && EmailShaped(r["email"]) && LeftmostLongest(message, r["email"]))
      && ("name" in r <==> !HasEmailSubstring(message) && exists k :: 0 <= k < |message| && !IsWhitespace(message[k]))
      && ("name" in r ==> r.Keys == {"name"} && r["name"] == Trim(message))
      && (r == map[] <==> !HasEmailSubstring(message) && forall k :: 0 <= k < |message| ==> IsWhitespace(message[k]))
      && !("email" in r && "name" in r)
  {
    FirstEmailCorrect(message);
  }

  /** The analysis used when the provider fails (or its output does not parse). */
  function FallbackAnalysis(message: string, candidates: seq<string>): Analysis {
    Analysis(
      if |candidates| > 0 then Some(candidates[0]) else None,
      ExtractBasicUserInputs(message),
      0.5,
      Some(AnalysisApology))
  }

  /**
   * `analyzeInput`: the provider's parsed answer when the call settles, the
   * fallback analysis when it throws; it never throws itself.
   */
  function AnalyzeInput(message: string, candidates: seq<string>, provider: Result<Analysis>): Analysis {
    match provider
    case Ok(a) => a
    case Err(_) => FallbackAnalysis(message, candidates)
  }

  /**
   * On any provider error the turn still gets an analysis: the first candidate
   * (none when there are no candidates), confidence 0.5, the extracted fields and
   * a non-empty apology.
   */
  lemma FallbackNeverStalls(message: string, candidates: seq<string>, error: string)
    ensures var a := AnalyzeInput(message, candidates, Err(error));
      && (|candidates| > 0 ==> a.nextNodeId == Some(candidates[0]))
      && (candidates == [] ==> a.nextNodeId == None)
      && a.confidence == 0.5
      && a.userInputs == ExtractBasicUserInputs(message)
      && Truthy(a.suggestedResponse)
  {
  }

  /** A successful provider answer is passed through untouched. */
  lemma ProviderAnswerPassedThrough(message: string, candidates: seq<string>, a: Analysis)
    ensures AnalyzeInput(message, candidates, Ok(a)) == a
  {
  }

  /** `scheduleDemo`'s catch: any failure becomes the fixed demo apology; success is unchanged. */
  function RewrapDemoError(r: Result<string>): (o: Result<string>)
    ensures o.Ok? <==> r.Ok?
    ensures r.Ok? ==> o == r
    ensures r.Err? ==> o == Err(DemoApology)
  {
    if r.Ok? then r else Err(DemoApology)
  }

  /** `getProductDetails`'s catch: any failure becomes the fixed product apology; success is unchanged. */
  function RewrapProductError(r: Result<string>): (o: Result<string>)
    ensures o.Ok? <==> r.Ok?
    ensures r.Ok? ==> o == r
    ensures r.Err? ==> o == Err(ProductApology)
  {
    if r.Ok? then r else Err(ProductApology)
  }
}
