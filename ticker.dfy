/**
 * Ticker canonicalisation (`normalize_asx_code`) and the quote-page URL built from a
 * ticker (`build_asx_url`), from src/asx_mcp/pipeline.py.
 *
 * The regular expressions of the source are written out as scanners: `re.fullmatch`
 * becomes a whole-string test, `re.search` the leftmost position where a matcher
 * succeeds, `re.findall` a left-to-right scan, and `re.sub(pattern, " ", s)` the function
 * `Substitute`. Greedy repetitions followed by `\b` are deterministic for these patterns,
 * so each matcher takes the longest run and checks the boundary after it.
 */
module Ticker {
  import opened Results
  import opened Text
  import Url

  /** Words that look like tickers but are common in natural-language requests. */
  const Stopwords: set<string> := {
    "A", "AN", "AND", "ASX", "AX", "ATTACH", "ATTACHED", "BODY", "CHART", "CHECK", "CODE",
    "COMPANY", "CREATE", "DAILY", "EMAIL", "FOR", "FINANCE", "GENERATE", "GRAPH", "IS", "MAIL",
    "OF", "PLEASE", "QUOTE", "REPORT", "SEND", "STOCK", "SUBJECT", "THE", "THIS", "TO", "TODAY",
    "TODAYS", "WITH", "YOUR", "YAHOO" }

  /** `[A-Z0-9]{2,6}` and not `isdigit()`: a code the normaliser returns unchanged. */
  predicate IsCleanCode(t: string) {
    2 <= |t| <= 6 && All(t, IsUpperAlnum) && !IsDigits(t)
  }

  /** What every result of the normaliser looks like. */
  predicate IsTickerShape(t: string) {
    1 <= |t| <= 6 && All(t, IsCodeChar) && !IsDigits(t)
  }

  // ---------------------------------------------------------------------------------------
  // Strategy 1: the `CODE.AX` form

  /** `re.fullmatch(r"([A-Z0-9]{1,6})\.AX", upper)` with a group that is not all digits. */
  function DotAxCode(upper: string): (r: Option<string>)
    ensures r.Some? ==> upper == r.value + ".AX" && 1 <= |r.value| <= 6 && All(r.value, IsUpperAlnum)
    ensures r.Some? ==> !IsDigits(r.value)
  {
    if EndsWith(upper, ".AX") then
      var p := upper[..|upper| - 3];
      assert upper == p + ".AX";
      if 1 <= |p| <= 6 && All(p, IsUpperAlnum) && !IsDigits(p) then Some(p) else None
    else None
  }

  // ---------------------------------------------------------------------------------------
  // Strategy 3: a URL in the input

  predicate IsNonSpace(c: char) { !IsSpace(c) }

  /** The characters `".,;:!?\"'"` stripped from both ends of a URL found in the text. */
  predicate IsUrlPunct(c: char) {
    c == '.' || c == ',' || c == ';' || c == ':' || c == '!' || c == '?' || c == '"' || c == '\''
  }

  /** `s` starts with the lower-case literal `lit`, ignoring ASCII case when `ignoreCase`. */
  predicate MatchesPrefix(s: string, lit: string, ignoreCase: bool) {
    |lit| <= |s| && forall k :: 0 <= k < |lit| ==> (if ignoreCase then LowerChar(s[k]) else s[k]) == lit[k]
  }

  /** Length of the `https?://` that starts `s`, or 0. */
  function SchemeLen(s: string, ignoreCase: bool): nat {
    if MatchesPrefix(s, "https://", ignoreCase) then 8
    else if MatchesPrefix(s, "http://", ignoreCase) then 7
    else 0
  }

  /** Length of a match of `https?://\S+` at the start of `s`. */
  function UrlLen(s: string, ignoreCase: bool): (n: Option<nat>)
    ensures n.Some? ==> 8 <= n.value <= |s|
  {
    var scheme := SchemeLen(s, ignoreCase);
    if 0 < scheme < |s| && IsNonSpace(s[scheme]) then Some(RunEnd(s, 0, IsNonSpace)) else None
  }

  /** The URL matcher with `re.IGNORECASE`. */
  function UrlLenIgnoringCase(s: string): Option<nat> { UrlLen(s, true) }

  /** The URL matcher without flags. */
  function UrlLenExactCase(s: string): Option<nat> { UrlLen(s, false) }

  /** `re.search(r"https?://\S+", s, flags=re.IGNORECASE)`: the leftmost match. */
  function FindUrl(s: string): (r: Option<string>)
    ensures r.Some? ==> 8 <= |r.value| <= |s|
    decreases |s|
  {
    if s == [] then None
    else match UrlLenIgnoringCase(s)
      case Some(n) => Some(s[..n])
      case None => FindUrl(s[1..])
  }

  /** `re.sub(r"[^A-Z0-9.]", "", part.upper())`. */
  function CleanPart(part: string): (r: string)
    ensures All(r, IsCodeChar) && |r| <= |part|
    ensures All(Upper(part), IsCodeChar) ==> r == Upper(part)
  {
    Filter(Upper(part), IsCodeChar)
  }

  /** The check applied to a cleaned path segment or query value. */
  function SuffixedCode(cleaned: string): (r: Option<string>)
    requires All(cleaned, IsCodeChar)
    ensures r.Some? ==> IsTickerShape(r.value) && r.value !in Stopwords
  {
    if EndsWith(cleaned, ".AX") then
      var code := cleaned[..|cleaned| - 3];
      if 1 <= |code| <= 6 && !IsDigits(code) && code !in Stopwords then Some(code) else None
    else None
  }

  /** The first path segment that passes `SuffixedCode`. */
  function SegmentCode(parts: seq<string>): (r: Option<string>)
    ensures r.Some? ==> IsTickerShape(r.value) && r.value !in Stopwords
    decreases |parts|
  {
    if parts == [] then None
    else
      var here := SuffixedCode(CleanPart(parts[0]));
      if here.Some? then here else SegmentCode(parts[1..])
  }

  /** `(query.get(key) or [""])[0]`, cleaned and checked. */
  function QueryCode(query: string, key: string): (r: Option<string>)
    ensures r.Some? ==> IsTickerShape(r.value) && r.value !in Stopwords
  {
    var value := match Url.FirstValue(query, key) case Some(v) => v case None => "";
    SuffixedCode(CleanPart(value))
  }

  /** Strategy 3 in full; a `ValueError` from `urlparse` abandons it. */
  function UrlCode(raw: string): (r: Option<string>)
    ensures r.Some? ==> IsTickerShape(r.value) && r.value !in Stopwords
  {
    match FindUrl(raw)
    case None => None
    case Some(found) =>
      match Url.Parse(StripChars(found, IsUrlPunct))
      case None => None
      case Some(parts) =>
        SegmentCode(Url.Segments(parts.path))
          .OrElse(QueryCode(parts.query, "p"))
          .OrElse(QueryCode(parts.query, "symbol"))
  }

  // ---------------------------------------------------------------------------------------
  // Text clean-up before strategies 4 and 5: `re.sub(pattern, " ", text)`

  /** Whether the pattern whose match length at the start of a string is `len` matches at the start of `s`. */
  predicate Matches(s: string, len: string -> Option<nat>) {
    len(s).Some? && 0 < len(s).value <= |s|
  }

  /** `re.sub(pattern, " ", s)` for a pattern whose match length at the start of a string is `len`. */
  function Substitute(s: string, len: string -> Option<nat>): (r: string)
    ensures |r| <= |s|
    ensures (forall k :: 0 <= k < |s| ==> !Matches(s[k..], len)) ==> r == s
    decreases |s|
  {
    if s == [] then []
    else
      assert s[0..] == s;
      if Matches(s, len) then " " + Substitute(s[len(s).value..], len)
      else
        assert forall k :: 1 <= k < |s| ==> s[1..][k - 1..] == s[k..];
        [s[0]] + Substitute(s[1..], len)
  }

  /** Every character of a substitution's result is the replacement space or one of `s`'s. */
  lemma {:induction false} SubstituteChars(s: string, len: string -> Option<nat>)
    ensures forall i :: 0 <= i < |Substitute(s, len)| ==> Substitute(s, len)[i] == ' ' || Substitute(s, len)[i] in s
    decreases |s|
  {
    if s != [] {
      var tail := if Matches(s, len) then s[len(s).value..] else s[1..];
      SubstituteChars(tail, len);
      assert forall c :: c in tail ==> c in s;
    }
  }

  predicate IsEmailLocalChar(c: char) {
    IsUpperAlnum(c) || c == '.' || c == '_' || c == '%' || c == '+' || c == '-'
  }

  predicate IsDomainChar(c: char) { IsUpperAlnum(c) || c == '.' || c == '-' }

  /**
   * Backtracking for `[A-Z0-9.-]+\.[A-Z]{2,}` over the domain that starts at `start`: the
   * last `.` at or before `dot` that has a non-empty domain before it and two letters after.
   */
  function TopLevelEnd(s: string, start: nat, dot: nat): (e: Option<nat>)
    requires dot < |s|
    ensures e.Some? ==> start < e.value <= |s|
    decreases dot
  {
    if dot <= start then None
    else
      var letters := RunEnd(s, dot + 1, IsUpper);
      if s[dot] == '.' && letters - (dot + 1) >= 2 then Some(letters)
      else TopLevelEnd(s, start, dot - 1)
  }

  /** Length of a match of `[A-Z0-9._%+-]+@[A-Z0-9.-]+\.[A-Z]{2,}` at the start of `s`. */
  function EmailLen(s: string): (n: Option<nat>)
    ensures n.Some? ==> 0 < n.value <= |s|
  {
    var at := RunEnd(s, 0, IsEmailLocalChar);
    if at == 0 || at == |s| || s[at] != '@' then None
    else
      var domainEnd := RunEnd(s, at + 1, IsDomainChar);
      if domainEnd == at + 1 then None else TopLevelEnd(s, at + 1, domainEnd - 1)
  }

  /**
   * The text scanned by strategies 4 and 5: URLs and e-mail addresses replaced by a space.
   * With `urlsIgnoreCase` false this is the source as written (the URL pattern has no
   * `re.IGNORECASE` but runs on upper-cased text); with true it is the intended clean-up.
   */
  function CleanText(upper: string, urlsIgnoreCase: bool): (r: string)
    ensures |r| <= |upper|
    ensures forall i :: 0 <= i < |r| ==> r[i] == ' ' || r[i] in upper
  {
    var withoutUrls := Substitute(upper, if urlsIgnoreCase then UrlLenIgnoringCase else UrlLenExactCase);
    SubstituteChars(upper, if urlsIgnoreCase then UrlLenIgnoringCase else UrlLenExactCase);
    SubstituteChars(withoutUrls, EmailLen);
    Substitute(withoutUrls, EmailLen)
  }

  // ---------------------------------------------------------------------------------------
  // Strategy 4: explicit markers

  datatype Separator =
    | ColonOrDash          // \s*[:\-]\s*
    | Spaces               // \s+
    | OptionalColonOrDash  // \s*[:\-]?\s*

  datatype Marker = Marker(keywords: seq<string>, separator: Separator)

  /** The marker patterns, in the order they are tried. */
  const Markers: seq<Marker> := [
    Marker(["ASX"], ColonOrDash),
    Marker(["ASX"], Spaces),
    Marker(["FOR"], Spaces),
    Marker(["CODE", "TICKER", "COMPANY"], OptionalColonOrDash)
  ]

  /** `\b` before a word character at `i`. */
  predicate BoundaryBefore(s: string, i: nat)
    requires i <= |s|
  {
    i == 0 || !IsWordChar(s[i - 1])
  }

  /** `\b` after a word character ending at `e`. */
  predicate BoundaryAfter(s: string, e: nat)
    requires e <= |s|
  {
    e == |s| || !IsWordChar(s[e])
  }

  /** `([A-Z0-9]{2,6})\b` at `k`. */
  function CodeAt(s: string, k: nat): (r: Option<string>)
    requires k <= |s|
    ensures r.Some? ==> 2 <= |r.value| <= 6 && All(r.value, IsUpperAlnum)
  {
    var e := RunEnd(s, k, IsUpperAlnum);
    if 2 <= e - k <= 6 && BoundaryAfter(s, e) then Some(s[k..e]) else None
  }

  /** End of the first keyword that occurs at `i`. */
  function KeywordEnd(s: string, i: nat, keywords: seq<string>): (j: Option<nat>)
    requires i <= |s|
    ensures j.Some? ==> i <= j.value <= |s|
    decreases |keywords|
  {
    if keywords == [] then None
    else if StartsWith(s[i..], keywords[0]) then Some(i + |keywords[0]|)
    else KeywordEnd(s, i, keywords[1..])
  }

  predicate IsColonOrDash(c: char) { c == ':' || c == '-' }

  function SeparatorEnd(s: string, j: nat, sep: Separator): (k: Option<nat>)
    requires j <= |s|
    ensures k.Some? ==> j <= k.value <= |s|
  {
    var afterSpaces := RunEnd(s, j, IsSpace);
    match sep
    case Spaces => if afterSpaces > j then Some(afterSpaces) else None
    case ColonOrDash =>
      if afterSpaces < |s| && IsColonOrDash(s[afterSpaces]) then Some(RunEnd(s, afterSpaces + 1, IsSpace))
      else None
    case OptionalColonOrDash =>
      if afterSpaces < |s| && IsColonOrDash(s[afterSpaces]) then Some(RunEnd(s, afterSpaces + 1, IsSpace))
      else Some(afterSpaces)
  }

  /** The group captured by a marker pattern matched at `i`. */
  function MarkerAt(s: string, i: nat, m: Marker): (r: Option<string>)
    requires i <= |s|
    ensures r.Some? ==> 2 <= |r.value| <= 6 && All(r.value, IsUpperAlnum)
  {
    if !BoundaryBefore(s, i) then None
    else match KeywordEnd(s, i, m.keywords)
      case None => None
      case Some(j) =>
        match SeparatorEnd(s, j, m.separator)
        case None => None
        case Some(k) => CodeAt(s, k)
  }

  /** `re.search(pattern, s)` from position `i`: the group of the leftmost match. */
  function SearchMarker(s: string, m: Marker, i: nat): (r: Option<string>)
    requires i <= |s|
    ensures r.Some? ==> 2 <= |r.value| <= 6 && All(r.value, IsUpperAlnum)
    decreases |s| - i
  {
    if i == |s| then None
    else if MarkerAt(s, i, m).Some? then MarkerAt(s, i, m)
    else SearchMarker(s, m, i + 1)
  }

  /** The check a code captured by a marker must pass. */
  predicate Accepted(found: Option<string>) {
    found.Some? && !IsDigits(found.value) && found.value !in Stopwords
  }

  /** Each pattern's first match is checked; a rejected match moves on to the next pattern. */
  function MarkerCode(s: string, patterns: seq<Marker>): (r: Option<string>)
    ensures r.Some? ==> IsCleanCode(r.value) && r.value !in Stopwords
    decreases |patterns|
  {
    if patterns == [] then None
    else
      var found := SearchMarker(s, patterns[0], 0);
      if Accepted(found) then found else MarkerCode(s, patterns[1..])
  }

  // ---------------------------------------------------------------------------------------
  // Strategy 5: the first plausible token

  /** `\b[A-Z][A-Z0-9]{1,5}\b` at `i`. */
  function TokenAt(s: string, i: nat): (r: Option<string>)
    requires i <= |s|
    ensures r.Some? ==> IsCleanCode(r.value) && IsUpper(r.value[0])
  {
    if i < |s| && BoundaryBefore(s, i) && IsUpper(s[i]) then CodeAt(s, i) else None
  }

  /** A token at `i` that the scan accepts. */
  predicate Qualifies(s: string, i: nat)
    requires i <= |s|
  {
    TokenAt(s, i).Some? && TokenAt(s, i).value !in Stopwords && !IsDigits(TokenAt(s, i).value)
  }

  /** The `re.findall` loop from position `i`: stopwords and numbers are skipped. */
  function FirstToken(s: string, i: nat): (r: Option<string>)
    requires i <= |s|
    ensures r.Some? ==> IsCleanCode(r.value) && r.value !in Stopwords
    decreases |s| - i
  {
    if i == |s| then None
    else if Qualifies(s, i) then TokenAt(s, i)
    else FirstToken(s, i + 1)
  }

  /** Strategies 4 and 5 on the cleaned text. */
  function TextCode(cleaned: string): (r: Option<string>)
    ensures r.Some? ==> IsCleanCode(r.value) && r.value !in Stopwords
  {
    MarkerCode(cleaned, Markers).OrElse(FirstToken(cleaned, 0))
  }

  // ---------------------------------------------------------------------------------------
  // The normaliser

  /** `normalize_asx_code`, with the text clean-up chosen by `urlsIgnoreCase`. */
  function NormalizeWith(asxCode: Option<string>, urlsIgnoreCase: bool): (r: Option<string>)
    ensures asxCode.None? || |Strip(asxCode.value)| == 0 ==> r.None?
    ensures r.Some? ==> IsTickerShape(r.value)
  {
    if asxCode.None? || |asxCode.value| == 0 then None
    else
      var raw := Strip(asxCode.value);
      if |raw| == 0 then None
      else
        var upper := Upper(raw);
        if DotAxCode(upper).Some? then DotAxCode(upper)
        else if IsCleanCode(upper) then Some(upper)
        else if UrlCode(raw).Some? then UrlCode(raw)
        else TextCode(CleanText(upper, urlsIgnoreCase))
  }

  /** `normalize_asx_code` exactly as written (its URL clean-up of the text never fires). */
  function NormalizeAsWritten(asxCode: Option<string>): (r: Option<string>)
    ensures asxCode.None? || |Strip(asxCode.value)| == 0 ==> r.None?
    ensures r.Some? ==> IsTickerShape(r.value)
  {
    NormalizeWith(asxCode, false)
  }

  /**
   * `normalize_asx_code` with URLs removed from the text before the marker and token scans,
   * as the source evidently intends.
   */
  function Normalize(asxCode: Option<string>): (r: Option<string>)
    ensures asxCode.None? || |Strip(asxCode.value)| == 0 ==> r.None?
    ensures r.Some? ==> IsTickerShape(r.value)
  {
    NormalizeWith(asxCode, true)
  }

  // ---------------------------------------------------------------------------------------
  // The quote-page URL

  /** Yahoo Finance's Australian site, which serves the quote pages. */
  const QuoteHost := "au.finance.yahoo.com"

  const QuotePrefix := "https://" + QuoteHost + "/quote/"

  /** `build_asx_url`. */
  function BuildAsxUrl(asxCode: Option<string>): (url: string)
    ensures StartsWith(url, QuotePrefix) && EndsWith(url, ".AX/")
  {
    var code := if asxCode.None? || |asxCode.value| == 0 then "HUB" else asxCode.value;
    var url := QuotePrefix + RemoveAll(Upper(code), ".AX") + ".AX/";
    assert url[..|QuotePrefix|] == QuotePrefix;
    url
  }
}
