/**
 * Properties of `build_asx_url` (src/asx_mcp/pipeline.py): the default ticker, the
 * removal of a Yahoo `.AX` suffix, and the round trip through `normalize_asx_code`, which
 * reads the ticker back out of the `/quote/<CODE>.AX/` path segment of the URL it built.
 */
module QuoteUrl {
  import opened Results
  import opened Text
  import opened Ticker
  import Url

  /** A ticker the normaliser's URL strategy accepts from a `<CODE>.AX` path segment. */
  predicate IsQuotableCode(c: string) {
    1 <= |c| <= 6 && All(c, IsUpperAlnum) && !IsDigits(c) && c !in Stopwords
  }

  // ---------------------------------------------------------------------------------------
  // Building the URL

  /** Without a ticker, or with an empty one, the URL is the quote page of HUB. */
  lemma DefaultTicker()
    ensures BuildAsxUrl(None) == QuotePrefix + "HUB.AX/"
    ensures BuildAsxUrl(Some("")) == BuildAsxUrl(None)
  {
    assert Upper("HUB") == "HUB";
    RemoveAllAbsent("HUB", ".AX");
  }

  lemma UpperHasNoDot(s: string)
    requires '.' !in s
    ensures '.' !in Upper(s)
  {
    forall i | 0 <= i < |s| ensures Upper(s)[i] != '.' {
      assert s[i] != '.';
    }
  }

  /** A ticker without a dot is upper-cased and placed between the prefix and `.AX/`. */
  lemma PlainTicker(c: string)
    requires |c| > 0 && '.' !in c
    ensures BuildAsxUrl(Some(c)) == QuotePrefix + Upper(c) + ".AX/"
  {
    UpperHasNoDot(c);
    RemoveAllAbsent(Upper(c), ".AX");
  }

  /** Text without the pattern's first character passes through `RemoveAll` unchanged. */
  lemma {:induction false} RemoveAllKeepsPrefix(s: string, t: string, pat: string)
    requires |pat| > 0 && pat[0] !in s
    ensures RemoveAll(s + t, pat) == s + RemoveAll(t, pat)
    decreases |s|
  {
    if |s| == 0 {
      assert s + t == t;
    } else {
      RemoveAllSkips(s + t, pat);
      assert (s + t)[1..] == s[1..] + t;
      RemoveAllKeepsPrefix(s[1..], t, pat);
      assert [s[0]] + (s[1..] + RemoveAll(t, pat)) == s + RemoveAll(t, pat);
    }
  }

  /** A character that cannot start the pattern is kept. */
  lemma RemoveAllSkips(u: string, pat: string)
    requires |pat| > 0 && |u| > 0 && u[0] != pat[0]
    ensures RemoveAll(u, pat) == [u[0]] + RemoveAll(u[1..], pat)
  {
    if |u| >= |pat| {
      assert u[..|pat|][0] == u[0];
    } else {
      assert [u[0]] + u[1..] == u;
    }
  }

  /** A Yahoo suffix in any case (`bhp.ax`, `BHP.AX`) is dropped: the same URL as the bare code. */
  lemma SuffixDropped(c: string, suffix: string)
    requires |c| > 0 && '.' !in c && Upper(suffix) == ".AX"
    ensures BuildAsxUrl(Some(c + suffix)) == BuildAsxUrl(Some(c))
  {
    UpperHasNoDot(c);
    assert Upper(c + suffix) == Upper(c) + ".AX";
    RemoveAllKeepsPrefix(Upper(c), ".AX", ".AX");
    assert RemoveAll(".AX", ".AX") == "";
    assert Upper(c) + "" == Upper(c);
    PlainTicker(c);
  }

  // ---------------------------------------------------------------------------------------
  // Reading the ticker back

  /** The path part of the quote URL of `c`. */
  function QuotePath(c: string): (p: string)
    ensures |p| == |c| + 11
  {
    "/quote/" + c + ".AX/"
  }

  /** The characters a quote URL of an upper-case alphanumeric code is made of. */
  predicate IsQuoteChar(ch: char) { IsUpperAlnum(ch) || IsLower(ch) || ch == '/' || ch == '.' || ch == ':' }

  lemma QuotePathChars(c: string)
    requires All(c, IsUpperAlnum)
    ensures All(QuotePath(c), IsQuoteChar)
    ensures '#' !in QuotePath(c) && '?' !in QuotePath(c) && ';' !in QuotePath(c)
  {
    var p := QuotePath(c);
    forall j | 0 <= j < |p| ensures IsQuoteChar(p[j]) {
      if 7 <= j < 7 + |c| {
        assert p[j] == c[j - 7];
      }
    }
    forall j | 0 <= j < |p| ensures p[j] != '#' && p[j] != '?' && p[j] != ';' {
      assert IsQuoteChar(p[j]);
    }
  }

  lemma QuoteUrlShape(c: string)
    requires IsQuotableCode(c)
    ensures BuildAsxUrl(Some(c)) == "https://" + QuoteHost + QuotePath(c)
  {
    UpperOfUpperAlnum(c);
    PlainTicker(c);
    var a, b := "https://" + QuoteHost, "/quote/";
    assert QuotePrefix + c + ".AX/" == a + (b + c + ".AX/");
  }

  lemma QuoteUrlChars(c: string, url: string)
    requires All(c, IsUpperAlnum) && url == "https://" + QuoteHost + QuotePath(c)
    ensures forall j :: 0 <= j < |url| ==> IsNonSpace(url[j])
  {
    var p := QuotePath(c);
    QuotePathChars(c);
    forall j | 0 <= j < |url| ensures IsNonSpace(url[j]) {
      if j >= 28 {
        assert url[j] == p[j - 28];
        assert IsQuoteChar(p[j - 28]);
      }
    }
  }

  /** The URL search finds the whole quote URL. */
  lemma QuoteUrlFound(c: string, url: string)
    requires All(c, IsUpperAlnum) && url == "https://" + QuoteHost + QuotePath(c)
    ensures FindUrl(url) == Some(url)
  {
    QuoteUrlChars(c, url);
    RunEndIs(url, 0, IsNonSpace, |url|);
    assert MatchesPrefix(url, "https://", true);
    assert url[..|url|] == url;
  }

  /** Neither whitespace nor punctuation is stripped from the quote URL. */
  lemma QuoteUrlUnpadded(c: string, url: string)
    requires url == "https://" + QuoteHost + QuotePath(c)
    ensures StripChars(url, IsUrlPunct) == url && Strip(url) == url
  {
    assert url[|url| - 1] == '/' && url[0] == 'h';
    assert TrimStart(url, IsUrlPunct) == url;
    StripUnpadded(url);
  }

  lemma QuoteUrlScheme(c: string, url: string)
    requires url == "https://" + QuoteHost + QuotePath(c)
    ensures Url.SplitScheme(url) == ("https", "//" + QuoteHost + QuotePath(c))
  {
    Url.IndexOfIs(url, 0, ':', 5);
    assert url[..5] == "https";
    assert Lower("https") == "https";
    assert url[6..] == "//" + QuoteHost + QuotePath(c);
  }

  lemma QuoteUrlAuthority(c: string, after: string)
    requires after == "//" + QuoteHost + QuotePath(c)
    ensures StartsWith(after, "//")
    ensures Url.FirstWhere(after, 2, Url.EndsNetloc) == 22
    ensures after[2..22] == QuoteHost && after[22..] == QuotePath(c)
  {
    assert after[..2] == "//";
    assert after[22] == '/';
    Url.FirstWhereIs(after, 2, Url.EndsNetloc, 22);
  }

  lemma PathWithoutDelimiters(p: string)
    requires '#' !in p && '?' !in p && ';' !in p
    ensures Url.IndexOf(p, 0, '#') == |p| && Url.IndexOf(p, 0, '?') == |p|
    ensures p[..|p|] == p
  {
    Url.IndexOfIs(p, 0, '#', |p|);
    Url.IndexOfIs(p, 0, '?', |p|);
  }

  /** `urlparse` of the quote URL: host, path, and empty params, query and fragment. */
  lemma QuoteUrlParsed(c: string, url: string)
    requires All(c, IsUpperAlnum) && url == "https://" + QuoteHost + QuotePath(c)
    ensures Url.Parse(url) == Some(Url.Parts("https", QuoteHost, QuotePath(c), "", "", ""))
  {
    var after := "//" + QuoteHost + QuotePath(c);
    QuoteUrlScheme(c, url);
    QuoteUrlAuthority(c, after);
    assert '[' !in QuoteHost && ']' !in QuoteHost;
    QuotePathChars(c);
    PathWithoutDelimiters(QuotePath(c));
  }

  /** One step of `path.split("/")`: the text before the first `/`, if any, is a segment. */
  lemma SegmentsStep(head: string, tail: string)
    requires '/' !in head
    ensures Url.Segments(head + "/" + tail) == (if |head| == 0 then [] else [head]) + Url.Segments(tail)
  {
    var path := head + "/" + tail;
    Url.IndexOfIs(path, 0, '/', |head|);
    assert path[..|head|] == head && path[|head| + 1..] == tail;
  }

  /** The non-empty segments of the quote path. */
  lemma QuotePathSegments(c: string)
    requires All(c, IsUpperAlnum)
    ensures Url.Segments(QuotePath(c)) == ["quote", c + ".AX"]
  {
    var code := c + ".AX";
    assert '/' !in code by {
      forall j | 0 <= j < |code| ensures code[j] != '/' {
        if j < |c| { assert code[j] == c[j]; }
      }
    }
    var rest2 := code + "/" + "";
    var rest1 := "quote" + "/" + rest2;
    assert QuotePath(c) == "" + "/" + rest1;
    SegmentsStep("", rest1);
    SegmentsStep("quote", rest2);
    SegmentsStep(code, "");
    assert Url.Segments("") == [];
  }

  lemma QuoteWordRejected(w: string)
    requires w == "quote"
    ensures SuffixedCode(CleanPart(w)).None?
  {
    assert CleanPart(w) == "QUOTE";
    assert "QUOTE"[2..] != ".AX";
  }

  lemma CodeSegmentAccepted(c: string)
    requires IsQuotableCode(c)
    ensures SuffixedCode(CleanPart(c + ".AX")) == Some(c)
  {
    var code := c + ".AX";
    assert All(code, IsCodeChar) by {
      forall j | 0 <= j < |code| ensures IsCodeChar(code[j]) {
        if j < |c| { assert code[j] == c[j]; }
      }
    }
    UpperOfUpperAlnum(code);
    assert CleanPart(code) == code;
    assert code[|code| - 3..] == ".AX" && code[..|code| - 3] == c;
  }

  lemma QuoteSegmentCode(c: string)
    requires IsQuotableCode(c)
    ensures SegmentCode(["quote", c + ".AX"]) == Some(c)
  {
    var parts := ["quote", c + ".AX"];
    QuoteWordRejected(parts[0]);
    CodeSegmentAccepted(c);
    assert parts[1..] == [c + ".AX"];
  }

  lemma QuoteUrlCode(c: string, url: string)
    requires IsQuotableCode(c) && url == "https://" + QuoteHost + QuotePath(c)
    ensures UrlCode(url) == Some(c)
  {
    QuoteUrlFound(c, url);
    QuoteUrlUnpadded(c, url);
    QuoteUrlParsed(c, url);
    QuotePathSegments(c);
    QuoteSegmentCode(c);
  }

  lemma QuoteUrlNotACode(url: string)
    requires |url| > 6 && url[|url| - 1] == '/'
    ensures DotAxCode(Upper(url)).None? && !IsCleanCode(Upper(url))
  {
    var upper := Upper(url);
    assert upper[|upper| - 1] == '/';
    if |upper| >= 3 {
      assert upper[|upper| - 3..][2] == upper[|upper| - 1];
    }
  }

  /** When strategies 1 and 2 do not apply, a URL the third strategy reads decides the result. */
  lemma NormalizeByUrl(s: string, code: string, urlsIgnoreCase: bool)
    requires |s| > 0 && Strip(s) == s
    requires DotAxCode(Upper(s)).None? && !IsCleanCode(Upper(s)) && UrlCode(s) == Some(code)
    ensures NormalizeWith(Some(s), urlsIgnoreCase) == Some(code)
  {
  }

  /**
   * Round trip: the normaliser, with either text clean-up, reads back the ticker of the quote
   * URL it is given.
   */
  lemma NormalizeReadsQuoteUrl(c: string, urlsIgnoreCase: bool)
    requires IsQuotableCode(c)
    ensures NormalizeWith(Some(BuildAsxUrl(Some(c))), urlsIgnoreCase) == Some(c)
  {
    var url := "https://" + QuoteHost + QuotePath(c);
    QuoteUrlShape(c);
    QuoteUrlUnpadded(c, url);
    QuoteUrlNotACode(url);
    QuoteUrlCode(c, url);
    NormalizeByUrl(url, c, urlsIgnoreCase);
  }
}
