/**
 * Requests that name no ticker: text made only of stopwords is normalised to nothing,
 * whichever clean-up of URLs is used; and two requests written out, one with only
 * stopwords and one that names the company after `for`.
 */
module StopwordProps {
  import opened Results
  import opened Text
  import opened Ticker
  import TickerProps

  // ---------------------------------------------------------------------------------------
  // Text made of stopwords

  /** A word begins at `i`: an upper-case letter at the start or after whitespace. */
  predicate WordStart(s: string, i: nat)
    requires i < |s|
  {
    IsUpper(s[i]) && (i == 0 || IsSpace(s[i - 1]))
  }

  /** Upper-case words separated by whitespace, every one of them in `words`. */
  predicate WordsIn(s: string, words: set<string>) {
    (forall k :: 0 <= k < |s| ==> IsUpper(s[k]) || IsSpace(s[k])) &&
    forall i :: 0 <= i < |s| && WordStart(s, i) ==> s[i..RunEnd(s, i, IsUpperAlnum)] in words
  }

  /** Text made only of stopwords. */
  predicate StopwordText(s: string) {
    WordsIn(s, Stopwords)
  }

  /** A single word of `words` is text made of `words`. */
  lemma SingleWord(w: string, words: set<string>)
    requires w in words && All(w, IsUpper)
    ensures WordsIn(w, words)
  {
    forall i | 0 <= i < |w| && WordStart(w, i) ensures w[i..RunEnd(w, i, IsUpperAlnum)] in words {
      assert i == 0;
      RunEndIs(w, 0, IsUpperAlnum, |w|);
      assert w[0..|w|] == w;
    }
  }

  /** A word that begins in the left piece of `a + " " + b` is a word of `a`. */
  lemma JoinLeftWord(a: string, b: string, i: nat, words: set<string>)
    requires WordsIn(a, words) && i < |a| && WordStart(a + " " + b, i)
    ensures (a + " " + b)[i..RunEnd(a + " " + b, i, IsUpperAlnum)] in words
  {
    var s := a + " " + b;
    assert WordStart(a, i);
    var e := RunEnd(a, i, IsUpperAlnum);
    RunEndIs(s, i, IsUpperAlnum, e);
    assert s[i..e] == a[i..e];
  }

  /** A word that begins in the right piece of `a + " " + b` is a word of `b`. */
  lemma JoinRightWord(a: string, b: string, i: nat, words: set<string>)
    requires WordsIn(b, words) && |a| < i < |a| + 1 + |b| && WordStart(a + " " + b, i)
    ensures (a + " " + b)[i..RunEnd(a + " " + b, i, IsUpperAlnum)] in words
  {
    var s := a + " " + b;
    var j := i - |a| - 1;
    assert s[i] == b[j];
    assert WordStart(b, j) by {
      if j > 0 { assert s[i - 1] == b[j - 1]; }
    }
    var e := RunEnd(b, j, IsUpperAlnum);
    RunEndIs(s, i, IsUpperAlnum, |a| + 1 + e);
    assert s[i..|a| + 1 + e] == b[j..e];
  }

  /** Two pieces of text made of `words`, joined by a space, are still made of `words`. */
  lemma JoinWords(a: string, b: string, words: set<string>)
    requires WordsIn(a, words) && WordsIn(b, words)
    ensures WordsIn(a + " " + b, words)
  {
    var s := a + " " + b;
    forall i | 0 <= i < |s| && WordStart(s, i) ensures s[i..RunEnd(s, i, IsUpperAlnum)] in words {
      if i < |a| {
        JoinLeftWord(a, b, i, words);
      } else {
        JoinRightWord(a, b, i, words);
      }
    }
  }

  /** Every token the scan finds in such text is one of its words. */
  lemma TokenIsWord(s: string, i: nat, words: set<string>)
    requires WordsIn(s, words) && i <= |s| && TokenAt(s, i).Some?
    ensures TokenAt(s, i).value in words
  {
    assert WordStart(s, i);
  }

  /** A run of `p` that covers `[i, j)` ends at `j` or later. */
  lemma {:induction false} RunEndCovers(s: string, i: nat, j: nat, p: char -> bool)
    requires i <= j <= |s|
    requires forall k :: i <= k < j ==> p(s[k])
    ensures RunEnd(s, i, p) >= j
    decreases j - i
  {
    if i < j {
      RunEndCovers(s, i + 1, j, p);
    }
  }

  /** The keyword list matches at `i` only when one of its keywords, the `n`-th, is spelt out there. */
  lemma {:induction false} KeywordEndIs(s: string, i: nat, keywords: seq<string>) returns (n: nat)
    requires i <= |s| && KeywordEnd(s, i, keywords).Some?
    ensures n < |keywords| && KeywordEnd(s, i, keywords) == Some(i + |keywords[n]|)
    ensures i + |keywords[n]| <= |s| && s[i..i + |keywords[n]|] == keywords[n]
    decreases |keywords|
  {
    if StartsWith(s[i..], keywords[0]) {
      assert s[i..i + |keywords[0]|] == s[i..][..|keywords[0]|];
      n := 0;
    } else {
      var m := KeywordEndIs(s, i, keywords[1..]);
      n := m + 1;
    }
  }

  /** No word of `words` is `kw` followed by more letters. */
  predicate ExtendsNone(kw: string, words: set<string>) {
    forall w :: w in words && StartsWith(w, kw) ==> w == kw
  }

  /**
   * The keywords of a marker are upper-case words, and where the separator may be empty
   * no word of `words` continues them.
   */
  predicate PlainMarker(m: Marker, words: set<string>) {
    forall n :: 0 <= n < |m.keywords| ==>
      |m.keywords[n]| > 0 && All(m.keywords[n], IsUpper) &&
      (m.separator == OptionalColonOrDash ==> ExtendsNone(m.keywords[n], words))
  }

  lemma PrefixChars(w: string, p: string)
    requires StartsWith(w, p)
    ensures forall i :: 0 <= i < |p| ==> w[i] == p[i]
  {
    forall i | 0 <= i < |p| ensures w[i] == p[i] {
      assert w[i] == w[..|p|][i];
    }
  }

  lemma CodeExtendsNoStopword()
    ensures All("CODE", IsUpper) && ExtendsNone("CODE", Stopwords)
  {
    forall w | w in Stopwords && StartsWith(w, "CODE") ensures w == "CODE" {
      PrefixChars(w, "CODE");
      assert w[0] == 'C' && w[1] == 'O' && w[2] == 'D' && w[3] == 'E';
    }
  }

  lemma TickerExtendsNoStopword()
    ensures All("TICKER", IsUpper) && ExtendsNone("TICKER", Stopwords)
  {
    forall w | w in Stopwords && StartsWith(w, "TICKER") ensures w == "TICKER" {
      PrefixChars(w, "TICKER");
      assert w[0] == 'T' && w[1] == 'I';
    }
  }

  lemma CompanyExtendsNoStopword()
    ensures All("COMPANY", IsUpper) && ExtendsNone("COMPANY", Stopwords)
  {
    forall w | w in Stopwords && StartsWith(w, "COMPANY") ensures w == "COMPANY" {
      PrefixChars(w, "COMPANY");
      assert w[0] == 'C' && w[1] == 'O' && w[2] == 'M' && w[3] == 'P';
    }
  }

  /** The `code`/`ticker`/`company` marker is plain with respect to the stopwords. */
  lemma CodeMarkerIsPlain(m: Marker)
    requires m == Marker(["CODE", "TICKER", "COMPANY"], OptionalColonOrDash)
    ensures PlainMarker(m, Stopwords)
  {
    forall n | 0 <= n < |m.keywords|
      ensures |m.keywords[n]| > 0 && All(m.keywords[n], IsUpper) && ExtendsNone(m.keywords[n], Stopwords)
    {
      if n == 0 {
        CodeExtendsNoStopword();
      } else if n == 1 {
        TickerExtendsNoStopword();
      } else {
        CompanyExtendsNoStopword();
      }
    }
  }

  /** A marker with one upper-case keyword and a separator that is never empty is plain. */
  lemma OneKeywordIsPlain(m: Marker, words: set<string>)
    requires |m.keywords| == 1 && |m.keywords[0]| > 0 && All(m.keywords[0], IsUpper)
    requires m.separator != OptionalColonOrDash
    ensures PlainMarker(m, words)
  {
  }

  /** Every marker pattern is plain with respect to the stopwords. */
  lemma MarkersArePlain()
    ensures forall n :: 0 <= n < |Markers| ==> PlainMarker(Markers[n], Stopwords)
  {
    OneKeywordIsPlain(Markers[0], Stopwords);
    OneKeywordIsPlain(Markers[1], Stopwords);
    OneKeywordIsPlain(Markers[2], Stopwords);
    CodeMarkerIsPlain(Markers[3]);
  }

  /** A match of a marker at `i`: its `n`-th keyword, then the separator, then the code. */
  lemma MarkerMatchIs(s: string, i: nat, m: Marker) returns (kw: string, k: nat)
    requires i <= |s| && MarkerAt(s, i, m).Some?
    ensures kw in m.keywords && i + |kw| <= |s| && s[i..i + |kw|] == kw && BoundaryBefore(s, i)
    ensures SeparatorEnd(s, i + |kw|, m.separator) == Some(k) && k <= |s|
    ensures MarkerAt(s, i, m) == CodeAt(s, k)
  {
    var n := KeywordEndIs(s, i, m.keywords);
    kw := m.keywords[n];
    k := SeparatorEnd(s, i + |kw|, m.separator).value;
  }

  /** A keyword found at a boundary of such text begins a word. */
  lemma KeywordAtWordStart(s: string, i: nat, kw: string, words: set<string>)
    requires WordsIn(s, words) && i + |kw| <= |s| && s[i..i + |kw|] == kw
    requires |kw| > 0 && All(kw, IsUpper) && BoundaryBefore(s, i)
    ensures i < |s| && WordStart(s, i)
  {
    assert s[i] == kw[0];
  }

  /** A keyword at the start of a word that no word continues is the whole word. */
  lemma KeywordIsWholeWord(s: string, i: nat, kw: string, words: set<string>)
    requires WordsIn(s, words) && i < |s| && WordStart(s, i)
    requires i + |kw| <= |s| && s[i..i + |kw|] == kw && All(kw, IsUpper) && ExtendsNone(kw, words)
    ensures i + |kw| == |s| || !IsUpperAlnum(s[i + |kw|])
  {
    var j := i + |kw|;
    assert forall k :: i <= k < j ==> s[k] == kw[k - i];
    RunEndCovers(s, i, j, IsUpperAlnum);
    var e := RunEnd(s, i, IsUpperAlnum);
    var w := s[i..e];
    assert w[..|kw|] == s[i..j];
    assert w == kw;
  }

  /** After the separator, a code captured from such text is a whole word. */
  lemma CaptureAfterSeparator(s: string, j: nat, sep: Separator, k: nat, words: set<string>)
    requires WordsIn(s, words) && 0 < j <= |s| && k <= |s|
    requires sep == OptionalColonOrDash ==> j == |s| || !IsUpperAlnum(s[j])
    requires SeparatorEnd(s, j, sep) == Some(k) && CodeAt(s, k).Some?
    ensures CodeAt(s, k).value in words
  {
    var a := RunEnd(s, j, IsSpace);
    assert k == a;
    assert a > j;
    assert WordStart(s, a);
  }

  /** A plain marker captures a whole word of such text. */
  lemma MarkerCaptureIsWord(s: string, i: nat, m: Marker, words: set<string>)
    requires WordsIn(s, words) && PlainMarker(m, words) && i <= |s| && MarkerAt(s, i, m).Some?
    ensures MarkerAt(s, i, m).value in words
  {
    var kw, k := MarkerMatchIs(s, i, m);
    KeywordAtWordStart(s, i, kw, words);
    if m.separator == OptionalColonOrDash {
      KeywordIsWholeWord(s, i, kw, words);
    }
    CaptureAfterSeparator(s, i + |kw|, m.separator, k, words);
  }

  /** The first match of a plain marker in such text captures one of its words. */
  lemma SearchCaptureIsWord(s: string, m: Marker, words: set<string>)
    requires WordsIn(s, words) && PlainMarker(m, words)
    ensures SearchMarker(s, m, 0).Some? ==> SearchMarker(s, m, 0).value in words
  {
    TickerProps.SearchIsLeftmost(s, m, 0);
    if SearchMarker(s, m, 0).Some? {
      var j :| TickerProps.LeftmostMatch(s, m, 0, j) && MarkerAt(s, j, m) == SearchMarker(s, m, 0);
      MarkerCaptureIsWord(s, j, m, words);
    }
  }

  /** Neither the marker scan nor the token scan finds anything in stopword text. */
  lemma StopwordTextHasNoCode(s: string)
    requires StopwordText(s)
    ensures MarkerCode(s, Markers).None? && FirstToken(s, 0).None? && TextCode(s).None?
  {
    MarkersArePlain();
    forall n | 0 <= n < |Markers| ensures !Accepted(SearchMarker(s, Markers[n], 0)) {
      SearchCaptureIsWord(s, Markers[n], Stopwords);
    }
    TickerProps.MarkersInOrder(s, Markers);
    forall j | 0 <= j < |s| ensures !Qualifies(s, j) {
      if TokenAt(s, j).Some? {
        TokenIsWord(s, j, Stopwords);
      }
    }
    TickerProps.NoTokenAnywhere(s, 0);
  }

  // ---------------------------------------------------------------------------------------
  // Text without a colon holds no URL

  lemma NoColonNoUrlAt(x: string, ignoreCase: bool)
    requires forall k :: 0 <= k < |x| ==> x[k] != ':'
    ensures UrlLen(x, ignoreCase).None?
  {
    if 7 <= |x| {
      assert LowerChar(x[4]) != ':';
    }
    if 8 <= |x| {
      assert LowerChar(x[5]) != ':';
    }
  }

  lemma {:induction false} NoColonFindsNoUrl(x: string)
    requires forall k :: 0 <= k < |x| ==> x[k] != ':'
    ensures FindUrl(x).None?
    decreases |x|
  {
    if x != [] {
      NoColonNoUrlAt(x, true);
      NoColonFindsNoUrl(x[1..]);
    }
  }

  lemma {:induction false} NoColonRemovesNoUrl(x: string, urlsIgnoreCase: bool)
    requires forall k :: 0 <= k < |x| ==> x[k] != ':'
    ensures Substitute(x, if urlsIgnoreCase then UrlLenIgnoringCase else UrlLenExactCase) == x
    decreases |x|
  {
    if x != [] {
      NoColonNoUrlAt(x, urlsIgnoreCase);
      NoColonRemovesNoUrl(x[1..], urlsIgnoreCase);
    }
  }

  /** Upper-casing keeps colons where they are and makes none. */
  lemma UpperKeepsColons(raw: string)
    requires forall k :: 0 <= k < |Upper(raw)| ==> Upper(raw)[k] != ':'
    ensures forall k :: 0 <= k < |raw| ==> raw[k] != ':'
  {
    forall k | 0 <= k < |raw| ensures raw[k] != ':' {
      assert Upper(raw)[k] == UpperChar(raw[k]);
    }
  }

  /**
   * Text without a colon or an `@` is scanned for markers and tokens as it is, under either
   * clean-up, and an input without a colon has no URL for strategy 3.
   */
  lemma PlainTextScannedAsIs(raw: string, urlsIgnoreCase: bool)
    requires forall k :: 0 <= k < |Upper(raw)| ==> Upper(raw)[k] != ':' && Upper(raw)[k] != '@'
    ensures UrlCode(raw).None? && CleanText(Upper(raw), urlsIgnoreCase) == Upper(raw)
  {
    var upper := Upper(raw);
    UpperKeepsColons(raw);
    NoColonFindsNoUrl(raw);
    NoColonRemovesNoUrl(upper, urlsIgnoreCase);
    assert '@' !in upper;
    TickerProps.NoAtNoEmail(upper);
  }

  /**
   * For text without a colon or an `@` that the first two strategies do not take, the
   * normaliser's answer is that of the marker and token scans.
   */
  lemma NormalizedByScans(s: string, urlsIgnoreCase: bool)
    requires |Strip(s)| > 0 && DotAxCode(Upper(Strip(s))).None? && !IsCleanCode(Upper(Strip(s)))
    requires forall k :: 0 <= k < |Upper(Strip(s))| ==> Upper(Strip(s))[k] != ':' && Upper(Strip(s))[k] != '@'
    ensures NormalizeWith(Some(s), urlsIgnoreCase) == TextCode(Upper(Strip(s)))
  {
    PlainTextScannedAsIs(Strip(s), urlsIgnoreCase);
  }

  /** Stopword text holds no colon, no `@` and no `.AX` suffix. */
  lemma StopwordTextIsPlain(t: string)
    requires StopwordText(t)
    ensures forall k :: 0 <= k < |t| ==> t[k] != ':' && t[k] != '@'
    ensures DotAxCode(t).None?
  {
    assert !EndsWith(t, ".AX") by {
      if 3 <= |t| {
        assert t[|t| - 3] != '.';
      }
    }
  }

  /**
   * A request made only of stopwords, which is not itself a clean code, is normalised to
   * nothing, whichever clean-up of URLs is used.
   */
  lemma StopwordsOnlyNone(s: string, urlsIgnoreCase: bool)
    requires StopwordText(Upper(Strip(s))) && !IsCleanCode(Upper(Strip(s)))
    ensures NormalizeWith(Some(s), urlsIgnoreCase).None?
  {
    var upper := Upper(Strip(s));
    if |Strip(s)| > 0 {
      StopwordTextIsPlain(upper);
      NormalizedByScans(s, urlsIgnoreCase);
      StopwordTextHasNoCode(upper);
    }
  }

  // ---------------------------------------------------------------------------------------
  // Two requests written out

  lemma DailyUpper(s: string)
    requires s == "send the daily report"
    ensures Upper(s) == "SEND" + " " + "THE" + " " + "DAILY" + " " + "REPORT"
  {
  }

  lemma DailyText(s: string)
    requires s == "send the daily report"
    ensures Strip(s) == s && Upper(s) == "SEND" + " " + "THE" + " " + "DAILY" + " " + "REPORT"
  {
    DailyUpper(s);
    StripUnpadded(s);
  }

  lemma DailyWords()
    ensures StopwordText("SEND" + " " + "THE" + " " + "DAILY" + " " + "REPORT")
  {
    SingleWord("SEND", Stopwords);
    SingleWord("THE", Stopwords);
    SingleWord("DAILY", Stopwords);
    SingleWord("REPORT", Stopwords);
    JoinWords("SEND", "THE", Stopwords);
    JoinWords("SEND" + " " + "THE", "DAILY", Stopwords);
    JoinWords("SEND" + " " + "THE" + " " + "DAILY", "REPORT", Stopwords);
  }

  /** "send the daily report" names no company. */
  lemma DailyReportRequest(s: string, urlsIgnoreCase: bool)
    requires s == "send the daily report"
    ensures NormalizeWith(Some(s), urlsIgnoreCase).None?
  {
    DailyText(s);
    DailyWords();
    StopwordsOnlyNone(s, urlsIgnoreCase);
  }

  /** `re.search` skips every position where the pattern does not match. */
  lemma {:induction false} SearchSkips(s: string, m: Marker, i: nat, j: nat)
    requires i <= j <= |s|
    requires forall k :: i <= k < j ==> MarkerAt(s, k, m).None?
    ensures SearchMarker(s, m, i) == SearchMarker(s, m, j)
    decreases j - i
  {
    if i < j {
      SearchSkips(s, m, i + 1, j);
    }
  }

  /** A marker whose keywords all begin with `c` does not match where `c` is absent. */
  lemma NoInitialNoMatch(s: string, k: nat, m: Marker, c: char)
    requires k < |s| && s[k] != c
    requires forall n :: 0 <= n < |m.keywords| ==> |m.keywords[n]| > 0 && m.keywords[n][0] == c
    ensures MarkerAt(s, k, m).None?
  {
    if KeywordEnd(s, k, m.keywords).Some? {
      var n := KeywordEndIs(s, k, m.keywords);
    }
  }

  /** Before a text without an `F` the `for` marker does not match. */
  lemma ForNotBefore(head: string, rest: string)
    requires 'F' !in head
    ensures SearchMarker(head + rest, Markers[2], 0) == SearchMarker(head + rest, Markers[2], |head|)
  {
    var t := head + rest;
    forall k | 0 <= k < |head| ensures MarkerAt(t, k, Markers[2]).None? {
      assert t[k] == head[k];
      NoInitialNoMatch(t, k, Markers[2], 'F');
    }
    SearchSkips(t, Markers[2], 0, |head|);
  }

  lemma ForKeyword(t: string, i: nat)
    requires i + 3 <= |t| && t[i..i + 3] == "FOR"
    ensures KeywordEnd(t, i, ["FOR"]) == Some(i + 3)
  {
    assert t[i..][..3] == t[i..i + 3];
  }

  lemma SingleSpace(t: string, j: nat)
    requires j + 1 < |t| && t[j] == ' ' && !IsSpace(t[j + 1])
    ensures SeparatorEnd(t, j, Spaces) == Some(j + 1)
  {
    RunEndIs(t, j, IsSpace, j + 1);
  }

  lemma CodeAtEnd(t: string, k: nat)
    requires k <= |t| && 2 <= |t| - k <= 6 && All(t[k..], IsUpperAlnum)
    ensures CodeAt(t, k) == Some(t[k..])
  {
    forall x | k <= x < |t| ensures IsUpperAlnum(t[x]) {
      assert t[x] == t[k..][x - k];
    }
    RunEndIs(t, k, IsUpperAlnum, |t|);
    assert t[k..|t|] == t[k..];
  }

  /** `FOR <code>` after whitespace, at the end of the text, is a match of the `for` marker. */
  lemma ForMatchAt(t: string, i: nat, code: string)
    requires 0 < i && i + 4 <= |t| && IsSpace(t[i - 1]) && t[i..i + 4] == "FOR " && t[i + 4..] == code
    requires 2 <= |code| <= 6 && All(code, IsUpperAlnum)
    ensures MarkerAt(t, i, Markers[2]) == Some(code)
  {
    assert t[i..i + 3] == t[i..i + 4][..3];
    ForKeyword(t, i);
    assert t[i + 3] == t[i..i + 4][3] && t[i + 4] == code[0];
    SingleSpace(t, i + 3);
    CodeAtEnd(t, i + 4);
    assert Markers[2] == Marker(["FOR"], Spaces);
  }

  /**
   * After text without an `F` that ends in whitespace, `FOR <code>` is the first match of
   * the `for` marker, and it captures the code.
   */
  lemma ForMarkerFinds(head: string, code: string)
    requires |head| > 0 && IsSpace(head[|head| - 1]) && 'F' !in head
    requires 2 <= |code| <= 6 && All(code, IsUpperAlnum)
    ensures SearchMarker(head + "FOR " + code, Markers[2], 0) == Some(code)
  {
    var t := head + "FOR " + code;
    var i := |head|;
    assert head + ("FOR " + code) == t;
    ForNotBefore(head, "FOR " + code);
    assert t[i - 1] == head[i - 1];
    assert t[i..i + 4] == "FOR " && t[i + 4..] == code;
    ForMatchAt(t, i, code);
  }

  /** Without an `X` neither `ASX` marker matches. */
  lemma NoAsxMarker(t: string)
    requires 'X' !in t
    ensures SearchMarker(t, Markers[0], 0).None? && SearchMarker(t, Markers[1], 0).None?
  {
    assert 'X' in "ASX";
    TickerProps.MarkerNeedsItsChars(t, Markers[0]);
    TickerProps.MarkerNeedsItsChars(t, Markers[1]);
  }

  /** When only the `for` marker matches, and its code is accepted, the text yields that code. */
  lemma ForMarkerCode(t: string, code: string)
    requires SearchMarker(t, Markers[0], 0).None? && SearchMarker(t, Markers[1], 0).None?
    requires SearchMarker(t, Markers[2], 0) == Some(code) && Accepted(Some(code))
    ensures MarkerCode(t, Markers) == Some(code) && TextCode(t) == Some(code)
  {
    assert Markers[1..][1..][0] == Markers[2];
  }

  /** A word of two to six characters between whitespace is a token, accepted unless it is a stopword. */
  lemma TokenBetweenSpaces(p: string, w: string, q: string)
    requires |p| > 0 && IsSpace(p[|p| - 1]) && |q| > 0 && IsSpace(q[0])
    requires 2 <= |w| <= 6 && IsUpper(w[0]) && All(w, IsUpperAlnum) && w !in Stopwords
    ensures TokenAt(p + w + q, |p|) == Some(w) && Qualifies(p + w + q, |p|)
  {
    var t := p + w + q;
    RunEndIs(t, |p|, IsUpperAlnum, |p| + |w|);
    assert t[|p|..|p| + |w|] == w;
  }

  lemma CslUpper(s: string)
    requires s == "please send me the report for csl"
    ensures Upper(s) == "PLEASE SEND ME THE REPORT FOR CSL"
  {
  }

  lemma CslText(s: string)
    requires s == "please send me the report for csl"
    ensures Strip(s) == s && Upper(s) == "PLEASE SEND ME THE REPORT FOR CSL"
  {
    CslUpper(s);
    StripUnpadded(s);
  }

  lemma CslPlain(t: string)
    requires t == "PLEASE SEND ME THE REPORT FOR CSL"
    ensures forall k :: 0 <= k < |t| ==> t[k] != ':' && t[k] != '@'
    ensures 'X' !in t && DotAxCode(t).None? && !IsCleanCode(t)
  {
    assert ':' !in t && '@' !in t;
    assert t[|t| - 3..] == "CSL";
  }

  lemma CslAccepted()
    ensures Accepted(Some("CSL")) && "ME" !in Stopwords
  {
    assert !IsDigit("CSL"[0]);
    assert "CSL" != "AND" && "CSL" != "ASX" && "CSL" != "FOR" && "CSL" != "THE";
    assert "ME" != "AN" && "ME" != "AX" && "ME" != "IS" && "ME" != "OF" && "ME" != "TO";
  }

  /** The scans of the CSL request: the `for` marker yields "CSL". */
  lemma CslTextCode(t: string)
    requires t == "PLEASE SEND ME THE REPORT FOR CSL"
    ensures TextCode(t) == Some("CSL")
  {
    var head := "PLEASE SEND ME THE REPORT ";
    assert t == head + "FOR " + "CSL";
    assert 'F' !in head;
    ForMarkerFinds(head, "CSL");
    CslPlain(t);
    NoAsxMarker(t);
    CslAccepted();
    ForMarkerCode(t, "CSL");
  }

  /** The CSL request holds the token "ME", which is not a stopword, at position 12. */
  lemma CslMeToken(t: string)
    requires t == "PLEASE SEND ME THE REPORT FOR CSL"
    ensures Qualifies(t, 12) && TokenAt(t, 12) == Some("ME")
  {
    assert t == "PLEASE SEND " + "ME" + " THE REPORT FOR CSL";
    CslAccepted();
    TokenBetweenSpaces("PLEASE SEND ", "ME", " THE REPORT FOR CSL");
  }

  /**
   * "please send me the report for csl" is normalised to "CSL": the `for` marker wins over
   * the earlier token "ME", which is not a stopword.
   */
  lemma CslRequestNormalised(s: string, urlsIgnoreCase: bool)
    requires s == "please send me the report for csl"
    ensures NormalizeWith(Some(s), urlsIgnoreCase) == Some("CSL")
    ensures Qualifies(Upper(Strip(s)), 12) && TokenAt(Upper(Strip(s)), 12) == Some("ME")
  {
    CslText(s);
    var t := Upper(s);
    CslPlain(t);
    NormalizedByScans(s, urlsIgnoreCase);
    CslTextCode(t);
    CslMeToken(t);
  }
}
