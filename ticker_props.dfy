/**
 * Properties of the ticker normaliser: the first two strategies, the reading order of the
 * marker and token scans, and what the text clean-up removes (as written and as intended).
 */
module TickerProps {
  import opened Results
  import opened Text
  import opened Ticker

  // ---------------------------------------------------------------------------------------
  // Strategies 1 and 2

  /** A `CODE.AX` input in any case and with any surrounding whitespace yields its prefix. */
  lemma DotAxFormAnyCase(s: string, p: string, urlsIgnoreCase: bool)
    requires Upper(Strip(s)) == p + ".AX"
    requires 1 <= |p| <= 6 && All(p, IsUpperAlnum) && !IsDigits(p)
    ensures NormalizeWith(Some(s), urlsIgnoreCase) == Some(p)
  {
    var upper := p + ".AX";
    assert upper[..|upper| - 3] == p;
    assert upper[|upper| - 3..] == ".AX";
  }

  /** An input that is already a clean code once stripped is returned upper-cased, stopword or not. */
  lemma CleanInputTrusted(s: string, urlsIgnoreCase: bool)
    requires IsCleanCode(Upper(Strip(s)))
    ensures NormalizeWith(Some(s), urlsIgnoreCase) == Some(Upper(Strip(s)))
  {
    CleanHasNoSuffix(Upper(Strip(s)));
  }

  lemma CleanHasNoSuffix(upper: string)
    requires IsCleanCode(upper)
    ensures DotAxCode(upper).None?
  {
    if |upper| >= 3 {
      assert IsUpperAlnum(upper[|upper| - 3]);
      assert upper[|upper| - 3..][0] == upper[|upper| - 3];
    }
  }

  /** Normalising a clean code again returns it unchanged. */
  lemma CleanCodeFixedPoint(c: string, urlsIgnoreCase: bool)
    requires IsCleanCode(c)
    ensures NormalizeWith(Some(c), urlsIgnoreCase) == Some(c)
  {
    assert IsUpperAlnum(c[0]) && IsUpperAlnum(c[|c| - 1]);
    StripUnpadded(c);
    UpperOfUpperAlnum(c);
    CleanInputTrusted(c, urlsIgnoreCase);
  }

  /** A one-character `X.AX` result is not a fixed point: normalising `X` again gives `None`. */
  lemma OneLetterResultNotFixed(x: char, urlsIgnoreCase: bool)
    requires IsUpper(x)
    ensures NormalizeWith(Some([x] + ".AX"), urlsIgnoreCase) == Some([x])
    ensures NormalizeWith(Some([x]), urlsIgnoreCase) == None
  {
    OneLetterText(x);
    DotAxFormAnyCase([x] + ".AX", [x], urlsIgnoreCase);
    SingleLetterFindsNothing(x, urlsIgnoreCase);
  }

  lemma OneLetterText(x: char)
    requires IsUpper(x)
    ensures Upper(Strip([x] + ".AX")) == [x] + ".AX"
    ensures Strip([x]) == [x] && Upper([x]) == [x] && DotAxCode([x]).None? && !IsCleanCode([x])
  {
    StripUnpadded([x] + ".AX");
    UpperOfUpperAlnum([x] + ".AX");
    StripUnpadded([x]);
    UpperOfUpperAlnum([x]);
  }

  /** Neither a URL nor a marker nor a token can be found in a single letter. */
  lemma SingleLetterFindsNothing(x: char, urlsIgnoreCase: bool)
    requires IsUpper(x)
    ensures UrlCode([x]).None? && CleanText([x], urlsIgnoreCase) == [x] && TextCode([x]).None?
  {
    var t := [x];
    assert t[1..] == [];
    assert FindUrl(t).None? by { assert UrlLenIgnoringCase(t).None?; }
    assert Substitute(t, UrlLenIgnoringCase) == t by { assert UrlLenIgnoringCase(t).None?; }
    assert Substitute(t, UrlLenExactCase) == t by { assert UrlLenExactCase(t).None?; }
    assert Substitute(t, EmailLen) == t by { assert EmailLen(t).None?; }
    forall n | 0 <= n < |Markers| ensures !Accepted(SearchMarker(t, Markers[n], 0)) {
      ShortTextHasNoKeyword(t, 0, Markers[n].keywords);
      SearchFailsEverywhere(t, Markers[n], 0);
    }
    MarkersInOrder(t, Markers);
    assert !Qualifies(t, 0) by { assert RunEnd(t, 0, IsUpperAlnum) == 1; }
    NoTokenAnywhere(t, 0);
  }

  /** A keyword of three or more letters cannot start in a text shorter than it. */
  lemma {:induction false} ShortTextHasNoKeyword(s: string, i: nat, keywords: seq<string>)
    requires i <= |s| && |s| - i < 3
    requires forall w :: w in keywords ==> |w| >= 3
    ensures KeywordEnd(s, i, keywords).None?
    decreases |keywords|
  {
    if keywords != [] {
      ShortTextHasNoKeyword(s, i, keywords[1..]);
    }
  }

  // ---------------------------------------------------------------------------------------
  // Reading order of the scans

  /** The token scan finds nothing only if no position holds a qualifying token. */
  lemma {:induction false} NoTokenAnywhere(s: string, i: nat)
    requires i <= |s|
    ensures FirstToken(s, i).None? <==> forall j :: i <= j < |s| ==> !Qualifies(s, j)
    decreases |s| - i
  {
    if i < |s| && !Qualifies(s, i) {
      NoTokenAnywhere(s, i + 1);
    }
  }

  /** `j` is the first position at or after `i` that holds a qualifying token. */
  predicate FirstQualifying(s: string, i: nat, j: nat) {
    i <= j < |s| && Qualifies(s, j) && forall k :: i <= k < j ==> !Qualifies(s, k)
  }

  /** The token scan returns the first qualifying token in reading order. */
  lemma {:induction false} FirstTokenInReadingOrder(s: string, i: nat)
    requires i <= |s|
    ensures FirstToken(s, i).Some? ==>
      exists j :: FirstQualifying(s, i, j) && TokenAt(s, j) == FirstToken(s, i)
    decreases |s| - i
  {
    var r := FirstToken(s, i);
    if i < |s| {
      if Qualifies(s, i) {
        assert FirstQualifying(s, i, i);
      } else {
        FirstTokenInReadingOrder(s, i + 1);
        if r.Some? {
          var j :| FirstQualifying(s, i + 1, j) && TokenAt(s, j) == r;
          assert FirstQualifying(s, i, j);
        }
      }
    }
  }

  /** `re.search` finds nothing only if the pattern matches at no position. */
  lemma {:induction false} SearchFailsEverywhere(s: string, m: Marker, i: nat)
    requires i <= |s|
    ensures SearchMarker(s, m, i).None? <==> forall j :: i <= j < |s| ==> MarkerAt(s, j, m).None?
    decreases |s| - i
  {
    if i < |s| {
      var here := MarkerAt(s, i, m);
      if here.None? {
        assert SearchMarker(s, m, i) == SearchMarker(s, m, i + 1);
        SearchFailsEverywhere(s, m, i + 1);
        if SearchMarker(s, m, i).None? {
          forall j | i <= j < |s| ensures MarkerAt(s, j, m).None? {
            if j == i { assert MarkerAt(s, j, m) == here; }
          }
        }
      } else {
        assert SearchMarker(s, m, i) == here;
      }
    }
  }

  /** `re.search` for a URL finds nothing only if the URL pattern matches at no position. */
  lemma {:induction false} FindUrlFailsEverywhere(s: string)
    ensures FindUrl(s).None? <==> forall i :: 0 <= i < |s| ==> UrlLenIgnoringCase(s[i..]).None?
    decreases |s|
  {
    if s != [] {
      assert s[0..] == s;
      if UrlLenIgnoringCase(s).None? {
        FindUrlFailsEverywhere(s[1..]);
        forall i | 1 <= i < |s| ensures s[1..][i - 1..] == s[i..] {}
      }
    }
  }

  /** `i` is the leftmost position of `s` where the URL pattern matches. */
  predicate LeftmostUrl(s: string, i: nat) {
    i < |s| && UrlLenIgnoringCase(s[i..]).Some? && forall k :: 0 <= k < i ==> UrlLenIgnoringCase(s[k..]).None?
  }

  /** The URL found is the whole match at the leftmost position where the pattern matches. */
  lemma {:induction false} FindUrlIsLeftmost(s: string) returns (i: nat)
    requires FindUrl(s).Some?
    ensures LeftmostUrl(s, i) && FindUrl(s) == Some(s[i..][..UrlLenIgnoringCase(s[i..]).value])
    decreases |s|
  {
    assert s[0..] == s;
    if UrlLenIgnoringCase(s).Some? {
      i := 0;
    } else {
      var k := FindUrlIsLeftmost(s[1..]);
      i := k + 1;
      assert s[1..][k..] == s[i..];
      forall j | 0 <= j < i ensures UrlLenIgnoringCase(s[j..]).None? {
        if j > 0 { assert s[1..][j - 1..] == s[j..]; }
      }
    }
  }

  /** `j` is the leftmost position at or after `i` where `m` matches. */
  predicate LeftmostMatch(s: string, m: Marker, i: nat, j: nat) {
    i <= j < |s| && MarkerAt(s, j, m).Some? && forall k :: i <= k < j ==> MarkerAt(s, k, m).None?
  }

  /** `re.search` reports the match at the leftmost position where the pattern matches. */
  lemma {:induction false} SearchIsLeftmost(s: string, m: Marker, i: nat)
    requires i <= |s|
    ensures SearchMarker(s, m, i).Some? ==>
      exists j :: LeftmostMatch(s, m, i, j) && MarkerAt(s, j, m) == SearchMarker(s, m, i)
    decreases |s| - i
  {
    var r := SearchMarker(s, m, i);
    if i < |s| {
      if MarkerAt(s, i, m).Some? {
        assert LeftmostMatch(s, m, i, i);
      } else {
        SearchIsLeftmost(s, m, i + 1);
        if r.Some? {
          var j :| LeftmostMatch(s, m, i + 1, j) && MarkerAt(s, j, m) == r;
          assert LeftmostMatch(s, m, i, j);
        }
      }
    }
  }

  /**
   * The marker patterns are tried in order: the code returned is the first match of the
   * first pattern whose first match is accepted, and there is none only if every pattern's
   * first match is rejected.
   */
  lemma {:induction false} MarkersInOrder(s: string, patterns: seq<Marker>)
    ensures MarkerCode(s, patterns).None? <==>
      forall n :: 0 <= n < |patterns| ==> !Accepted(SearchMarker(s, patterns[n], 0))
    ensures MarkerCode(s, patterns).Some? ==>
      exists n :: 0 <= n < |patterns| && MarkerCode(s, patterns) == SearchMarker(s, patterns[n], 0) &&
        Accepted(SearchMarker(s, patterns[n], 0)) &&
        (forall k :: 0 <= k < n ==> !Accepted(SearchMarker(s, patterns[k], 0)))
    decreases |patterns|
  {
    if patterns != [] && !Accepted(SearchMarker(s, patterns[0], 0)) {
      MarkersInOrder(s, patterns[1..]);
      assert forall n :: 1 <= n < |patterns| ==> patterns[n] == patterns[1..][n - 1];
    }
  }

  /** The token scan runs only when no marker pattern yields an accepted code. */
  lemma MarkersBeforeTokens(s: string)
    ensures (exists n :: 0 <= n < |Markers| && Accepted(SearchMarker(s, Markers[n], 0))) ==>
      TextCode(s) == MarkerCode(s, Markers)
    ensures (forall n :: 0 <= n < |Markers| ==> !Accepted(SearchMarker(s, Markers[n], 0))) ==>
      TextCode(s) == FirstToken(s, 0)
  {
    MarkersInOrder(s, Markers);
  }

  /** `w` has a character that does not occur in `s`. */
  predicate MissesCharOf(w: string, s: string) {
    exists c :: c in w && c !in s
  }

  /** A keyword matches only where all of its characters occur in the text. */
  lemma {:induction false} KeywordNeedsItsChars(s: string, i: nat, keywords: seq<string>)
    requires i <= |s|
    requires forall w :: w in keywords ==> MissesCharOf(w, s)
    ensures KeywordEnd(s, i, keywords).None?
    decreases |keywords|
  {
    if keywords != [] {
      var w := keywords[0];
      assert w in keywords;
      assert MissesCharOf(w, s);
      var c :| c in w && c !in s;
      assert !StartsWith(s[i..], w) by {
        if |w| <= |s| - i {
          var k :| 0 <= k < |w| && w[k] == c;
          assert s[i..][..|w|][k] == s[i + k];
        }
      }
      KeywordNeedsItsChars(s, i, keywords[1..]);
    }
  }

  /** A marker pattern finds nothing in a text that lacks a character of each of its keywords. */
  lemma MarkerNeedsItsChars(s: string, m: Marker)
    requires forall w :: w in m.keywords ==> MissesCharOf(w, s)
    ensures SearchMarker(s, m, 0).None?
  {
    forall j | 0 <= j < |s| ensures MarkerAt(s, j, m).None? {
      KeywordNeedsItsChars(s, j, m.keywords);
    }
    SearchFailsEverywhere(s, m, 0);
  }

  // ---------------------------------------------------------------------------------------
  // Strategy 3: the order in which the parts of a URL are consulted

  /** `SegmentCode` finds nothing exactly when no segment passes. */
  lemma {:induction false} SegmentCodeNone(parts: seq<string>)
    ensures SegmentCode(parts).None? <==> forall i :: 0 <= i < |parts| ==> SuffixedCode(CleanPart(parts[i])).None?
    decreases |parts|
  {
    if parts != [] {
      SegmentCodeNone(parts[1..]);
      assert forall i :: 1 <= i < |parts| ==> parts[i] == parts[1..][i - 1];
    }
  }

  /** When `SegmentCode` finds a code, it is that of the first segment that passes. */
  lemma {:induction false} SegmentCodeFirst(parts: seq<string>) returns (i: nat)
    requires SegmentCode(parts).Some?
    ensures i < |parts| && SegmentCode(parts) == SuffixedCode(CleanPart(parts[i]))
    ensures forall j :: 0 <= j < i ==> SuffixedCode(CleanPart(parts[j])).None?
    decreases |parts|
  {
    var here := SuffixedCode(CleanPart(parts[0]));
    if here.Some? {
      i := 0;
      assert SegmentCode(parts) == here;
    } else {
      var tail := parts[1..];
      assert SegmentCode(parts) == SegmentCode(tail);
      var k := SegmentCodeFirst(tail);
      i := k + 1;
      assert parts[i] == tail[k];
      forall j | 0 <= j < i ensures SuffixedCode(CleanPart(parts[j])).None? {
        if j == 0 { assert SuffixedCode(CleanPart(parts[j])) == here; }
        else { assert parts[j] == tail[j - 1]; }
      }
    }
  }

  /**
   * Once a URL is found and parsed, a path segment that passes wins whatever the query holds;
   * otherwise `p` is consulted before `symbol`, and `symbol` only when `p` yields nothing.
   */
  lemma UrlCodeOrder(raw: string, parts: Url.Parts)
    requires FindUrl(raw).Some? && Url.Parse(StripChars(FindUrl(raw).value, IsUrlPunct)) == Some(parts)
    ensures (exists i :: 0 <= i < |Url.Segments(parts.path)| &&
              SuffixedCode(CleanPart(Url.Segments(parts.path)[i])).Some?) ==>
      UrlCode(raw) == SegmentCode(Url.Segments(parts.path))
    ensures SegmentCode(Url.Segments(parts.path)).None? && QueryCode(parts.query, "p").Some? ==>
      UrlCode(raw) == QueryCode(parts.query, "p")
    ensures SegmentCode(Url.Segments(parts.path)).None? && QueryCode(parts.query, "p").None? ==>
      UrlCode(raw) == QueryCode(parts.query, "symbol")
  {
    var segs := Url.Segments(parts.path);
    SegmentCodeNone(segs);
    assert UrlCode(raw) ==
      SegmentCode(segs).OrElse(QueryCode(parts.query, "p")).OrElse(QueryCode(parts.query, "symbol"));
  }

  // ---------------------------------------------------------------------------------------
  // The text clean-up

  /** No position of `s` starts a URL, whatever its case. */
  predicate NoUrl(s: string) {
    forall k :: 0 <= k < |s| ==> UrlLenIgnoringCase(s[k..]).None?
  }

  /** A URL match begins with a scheme and one more character, none of them whitespace. */
  lemma UrlStartIsWord(x: string)
    requires UrlLenIgnoringCase(x).Some?
    ensures SchemeLen(x, true) + 1 <= |x| && All(x[..SchemeLen(x, true) + 1], IsNonSpace)
  {
    var n := SchemeLen(x, true);
    var lit := if n == 8 then "https://" else "http://";
    assert MatchesPrefix(x, lit, true);
    forall k | 0 <= k < n ensures IsNonSpace(x[k]) {
      assert LowerChar(x[k]) == lit[k];
    }
  }

  /** Whether a URL starts `x` depends only on its scheme and the character after it. */
  lemma UrlOfSameStart(x: string, y: string)
    requires UrlLenIgnoringCase(x).Some?
    requires SchemeLen(x, true) + 1 <= |y| && y[..SchemeLen(x, true) + 1] == x[..SchemeLen(x, true) + 1]
    ensures UrlLenIgnoringCase(y).Some?
  {
    var n := SchemeLen(x, true);
    assert forall k :: 0 <= k <= n ==> y[k] == x[..n + 1][k];
    assert MatchesPrefix(y, "https://", true) == MatchesPrefix(x, "https://", true);
  }

  /** Up to its first whitespace, `Substitute(t, len)` is a copy of `t`. */
  lemma {:induction false} SubstituteKeepsLeadingWord(t: string, len: string -> Option<nat>, n: nat)
    requires n <= |Substitute(t, len)| && All(Substitute(t, len)[..n], IsNonSpace)
    ensures n <= |t| && t[..n] == Substitute(t, len)[..n]
    decreases |t|
  {
    var r := Substitute(t, len);
    if t != [] {
      if Matches(t, len) {
        assert r[0] == ' ';
      } else if n > 0 {
        var rest := Substitute(t[1..], len);
        assert r == [t[0]] + rest;
        assert rest[..n - 1] == r[1..n];
        SubstituteKeepsLeadingWord(t[1..], len, n - 1);
        assert t[..n] == [t[0]] + t[1..][..n - 1];
      }
    }
  }

  /** Keeping the first character of `t` cannot create a URL that `t` did not start with. */
  lemma NoNewUrlAtStart(t: string, len: string -> Option<nat>)
    requires t != [] && !Matches(t, len)
    ensures UrlLenIgnoringCase(t).None? ==> UrlLenIgnoringCase(Substitute(t, len)).None?
  {
    var r := Substitute(t, len);
    if UrlLenIgnoringCase(r).Some? {
      var n := SchemeLen(r, true) + 1;
      UrlStartIsWord(r);
      SubstituteKeepsLeadingWord(t, len, n);
      UrlOfSameStart(r, t);
    }
  }

  /** A space in front of a URL-free text does not start a URL. */
  lemma SpaceThenNoUrl(rest: string)
    requires NoUrl(rest)
    ensures NoUrl(" " + rest)
  {
    var r := " " + rest;
    forall k | 0 <= k < |r| ensures UrlLenIgnoringCase(r[k..]).None? {
      if k == 0 {
        assert r[0..][0] == ' ';
      } else {
        assert r[k..] == rest[k - 1..];
      }
    }
  }

  /** A character in front of a URL-free text keeps it URL-free unless a URL starts there. */
  lemma CharThenNoUrl(c: char, rest: string)
    requires NoUrl(rest) && UrlLenIgnoringCase([c] + rest).None?
    ensures NoUrl([c] + rest)
  {
    var r := [c] + rest;
    forall k | 0 <= k < |r| ensures UrlLenIgnoringCase(r[k..]).None? {
      if k == 0 {
        assert r[0..] == r;
      } else {
        assert r[k..] == rest[k - 1..];
      }
    }
  }

  /** After the case-insensitive `re.sub`, no URL is left. */
  lemma {:induction false} UrlsRemoved(t: string)
    ensures NoUrl(Substitute(t, UrlLenIgnoringCase))
    decreases |t|
  {
    if t != [] {
      var m := UrlLenIgnoringCase(t);
      if m.Some? {
        UrlsRemoved(t[m.value..]);
        SpaceThenNoUrl(Substitute(t[m.value..], UrlLenIgnoringCase));
      } else {
        UrlsRemoved(t[1..]);
        NoNewUrlAtStart(t, UrlLenIgnoringCase);
        CharThenNoUrl(t[0], Substitute(t[1..], UrlLenIgnoringCase));
      }
    }
  }

  /** A suffix of a URL-free text is URL-free. */
  lemma NoUrlSuffix(t: string, n: nat)
    requires NoUrl(t) && n <= |t|
    ensures NoUrl(t[n..])
  {
    assert forall k :: 0 <= k < |t| - n ==> t[n..][k..] == t[n + k..];
  }

  /** Any later `re.sub(..., " ", ...)` keeps a URL-free text URL-free. */
  lemma {:induction false} UrlsStayRemoved(t: string, len: string -> Option<nat>)
    requires NoUrl(t)
    ensures NoUrl(Substitute(t, len))
    decreases |t|
  {
    if t != [] {
      if Matches(t, len) {
        var m := len(t).value;
        NoUrlSuffix(t, m);
        UrlsStayRemoved(t[m..], len);
        SpaceThenNoUrl(Substitute(t[m..], len));
      } else {
        NoUrlSuffix(t, 1);
        UrlsStayRemoved(t[1..], len);
        assert UrlLenIgnoringCase(t[0..]).None? && t[0..] == t;
        NoNewUrlAtStart(t, len);
        CharThenNoUrl(t[0], Substitute(t[1..], len));
      }
    }
  }

  /** Intended behaviour: the marker and token scans never see any part of a URL. */
  lemma TextScanSeesNoUrl(upper: string)
    ensures NoUrl(CleanText(upper, true))
  {
    UrlsRemoved(upper);
    UrlsStayRemoved(Substitute(upper, UrlLenIgnoringCase), EmailLen);
  }

  /** As written, the URL pattern looks for a lower-case `h` and so never matches upper-cased text. */
  lemma {:induction false} ExactCaseRemovalIsIdentity(s: string)
    requires 'h' !in s
    ensures Substitute(s, UrlLenExactCase) == s
    decreases |s|
  {
    if s != [] {
      assert !MatchesPrefix(s, "https://", false) && !MatchesPrefix(s, "http://", false) by {
        assert s[0] != 'h';
      }
      ExactCaseRemovalIsIdentity(s[1..]);
    }
  }

  /** As written, the text scanned for markers and tokens still holds every URL of the input. */
  lemma AsWrittenKeepsUrls(raw: string)
    ensures CleanText(Upper(raw), false) == Substitute(Upper(raw), EmailLen)
  {
    var upper := Upper(raw);
    forall i | 0 <= i < |upper| ensures upper[i] != 'h' {
      assert upper[i] == UpperChar(raw[i]);
    }
    ExactCaseRemovalIsIdentity(upper);
  }

  /** Without an `@` there is no e-mail address to remove. */
  lemma {:induction false} NoAtNoEmail(s: string)
    requires '@' !in s
    ensures Substitute(s, EmailLen) == s
    decreases |s|
  {
    if s != [] {
      var at := RunEnd(s, 0, IsEmailLocalChar);
      assert at < |s| ==> s[at] != '@';
      NoAtNoEmail(s[1..]);
    }
  }

  // ---------------------------------------------------------------------------------------
  // A URL with nothing ticker-like in it: "https://ft.com"

  lemma FtText(u: string)
    requires u == "https://ft.com"
    ensures Strip(u) == u && Upper(u) == "HTTPS://FT.COM"
    ensures DotAxCode(Upper(u)).None? && !IsCleanCode(Upper(u))
  {
    StripUnpadded(u);
  }

  lemma FtFound(u: string)
    requires u == "https://ft.com"
    ensures FindUrl(u) == Some(u)
  {
    RunEndIs(u, 0, IsNonSpace, 14);
    assert UrlLenIgnoringCase(u) == Some(14);
    assert u[..14] == u;
  }

  lemma FtUnpunctuated(u: string)
    requires u == "https://ft.com"
    ensures StripChars(u, IsUrlPunct) == u
  {
    assert !IsUrlPunct(u[0]);
    assert TrimStart(u, IsUrlPunct) == u;
    assert !IsUrlPunct(u[|u| - 1]);
  }

  lemma FtScheme(u: string)
    requires u == "https://ft.com"
    ensures Url.SplitScheme(u) == ("https", "//ft.com")
  {
    Url.IndexOfIs(u, 0, ':', 5);
    var scheme := u[..5];
    assert scheme == "https";
    assert All(scheme, Url.IsSchemeChar);
    assert Lower(scheme) == scheme;
    assert u[6..] == "//ft.com";
  }

  lemma FtParsed(u: string)
    requires u == "https://ft.com"
    ensures Url.Parse(u) == Some(Url.Parts("https", "ft.com", "", "", "", ""))
  {
    FtScheme(u);
    FtAuthority("//ft.com");
    Url.IndexOfIs("", 0, '#', 0);
    Url.IndexOfIs("", 0, '?', 0);
  }

  /** The authority of `https://ft.com` is the whole of `ft.com`, with no brackets. */
  lemma FtAuthority(rest: string)
    requires rest == "//ft.com"
    ensures StartsWith(rest, "//")
    ensures Url.SplitNetloc(rest) == ("ft.com", "") && '[' !in "ft.com" && ']' !in "ft.com"
  {
    assert rest[..2] == "//";
    Url.FirstWhereIs(rest, 2, Url.EndsNetloc, 8);
    assert rest[2..8] == "ft.com" && rest[8..] == [];
  }

  lemma FtNoUrlCode(u: string)
    requires u == "https://ft.com"
    ensures UrlCode(u).None?
  {
    FtFound(u);
    FtUnpunctuated(u);
    FtParsed(u);
    EmptyPathNoCode();
    EmptyQueryNoCode("p");
    EmptyQueryNoCode("symbol");
  }

  /** An empty path holds no segment code. */
  lemma EmptyPathNoCode()
    ensures SegmentCode(Url.Segments("")).None?
  {
    assert Url.Segments("") == [];
  }

  /** An empty query holds no code under any key. */
  lemma EmptyQueryNoCode(key: string)
    ensures QueryCode("", key).None?
  {
    assert Url.FirstValue("", key).None?;
    assert CleanPart("") == [];
  }

  lemma FtIntendedText(t: string)
    requires t == "HTTPS://FT.COM"
    ensures CleanText(t, true) == " "
  {
    FtUrlLen(t);
    WholeMatchSubstituted(t, UrlLenIgnoringCase);
    NoAtNoEmail(" ");
  }

  lemma FtUrlLen(t: string)
    requires t == "HTTPS://FT.COM"
    ensures UrlLenIgnoringCase(t) == Some(|t|)
  {
    RunEndIs(t, 0, IsNonSpace, 14);
  }

  /** Text that is one match as a whole becomes a single space. */
  lemma WholeMatchSubstituted(s: string, len: string -> Option<nat>)
    requires |s| > 0 && len(s) == Some(|s|)
    ensures Substitute(s, len) == " "
  {
    assert s[|s|..] == [];
  }

  lemma BlankHasNoCode(blank: string)
    requires blank == " "
    ensures TextCode(blank).None?
  {
    forall n | 0 <= n < |Markers| ensures !Accepted(SearchMarker(blank, Markers[n], 0)) {
      ShortTextHasNoKeyword(blank, 0, Markers[n].keywords);
      SearchFailsEverywhere(blank, Markers[n], 0);
    }
    MarkersInOrder(blank, Markers);
    NoTokenAnywhere(blank, 0);
  }

  lemma FtMarkers(t: string)
    requires t == "HTTPS://FT.COM"
    ensures MarkerCode(t, Markers).None?
  {
    assert 'A' in "ASX" && 'A' !in t;
    assert 'R' in "FOR" && 'R' !in t;
    assert 'D' in "CODE" && 'D' !in t;
    assert 'I' in "TICKER" && 'I' !in t;
    assert 'A' in "COMPANY";
    forall n | 0 <= n < |Markers| ensures SearchMarker(t, Markers[n], 0).None? {
      MarkerNeedsItsChars(t, Markers[n]);
    }
    MarkersInOrder(t, Markers);
  }

  lemma FtPlainChars(t: string)
    requires t == "HTTPS://FT.COM"
    ensures 'h' !in t && '@' !in t
  {
    forall i | 0 <= i < |t|
      ensures t[i] != 'h' && t[i] != '@'
    {
    }
  }

  /** As written, text with no lower-case `h` and no `@` passes the clean-up unchanged. */
  lemma AsWrittenUntouched(t: string)
    requires 'h' !in t && '@' !in t
    ensures CleanText(t, false) == t
  {
    ExactCaseRemovalIsIdentity(t);
    NoAtNoEmail(t);
  }

  lemma FtFirstToken(t: string)
    requires t == "HTTPS://FT.COM"
    ensures FirstToken(t, 0) == Some("HTTPS")
  {
    RunEndIs(t, 0, IsUpperAlnum, 5);
    assert !IsDigit(t[0]);
    assert t[0..5] == "HTTPS";
    assert Qualifies(t, 0);
  }

  /** As written, "https://ft.com" is normalised to "HTTPS", a word of the URL itself. */
  lemma FtAsWritten(u: string)
    requires u == "https://ft.com"
    ensures NormalizeAsWritten(Some(u)) == Some("HTTPS")
  {
    var t := "HTTPS://FT.COM";
    FtText(u);
    FtNoUrlCode(u);
    FtPlainChars(t);
    AsWrittenUntouched(t);
    FtMarkers(t);
    FtFirstToken(t);
  }

  /** With the URL removed from the text first, as intended, "https://ft.com" has no ticker. */
  lemma FtIntended(u: string)
    requires u == "https://ft.com"
    ensures Normalize(Some(u)) == None
  {
    var t := "HTTPS://FT.COM";
    FtText(u);
    FtNoUrlCode(u);
    FtIntendedText(t);
    BlankHasNoCode(" ");
  }

  /** The two clean-ups disagree on "https://ft.com": as written a ticker, as intended none. */
  lemma UrlTextCounterexample(u: string)
    requires u == "https://ft.com"
    ensures NormalizeAsWritten(Some(u)) == Some("HTTPS")
    ensures Normalize(Some(u)) == None
  {
    FtAsWritten(u);
    FtIntended(u);
  }
}
