/**
 * How src/asx_mcp/server.py recognises a repeated request: the request key built from the
 * canonical ticker, the canonical recipient and the `send_email` flag, and the two
 * de-duplication windows read from the environment.
 */
module RequestKey {
  import opened Results
  import opened Text
  import Ticker
  import Report
  import Pipeline

  /** `_canonical_ticker(asx_code)`: `normalize_asx_code(asx_code) or "HUB"`. */
  function CanonicalTicker(asxCode: string): (t: string)
    ensures Ticker.NormalizeAsWritten(Some(asxCode)).None? ==> t == Report.DefaultSlug
    ensures Ticker.NormalizeAsWritten(Some(asxCode)).Some? ==> t == Ticker.NormalizeAsWritten(Some(asxCode)).value
    ensures t == Report.DefaultSlug || Ticker.IsTickerShape(t)
  {
    Report.Slug(Ticker.NormalizeAsWritten(Some(asxCode)))
  }

  /** A ticker-shaped code, or the default, never holds the key separator. */
  lemma SlugHasNoSeparator(code: Option<string>)
    requires code.Some? ==> Ticker.IsTickerShape(code.value)
    ensures '|' !in Report.Slug(code)
  {
    var t := Report.Slug(code);
    assert All(t, IsCodeChar);
    forall i | 0 <= i < |t|
      ensures t[i] != '|'
    {
      assert IsCodeChar(t[i]);
    }
  }

  /** The canonical ticker never holds the key separator. */
  lemma CanonicalTickerShape(asxCode: string)
    ensures '|' !in CanonicalTicker(asxCode)
  {
    SlugHasNoSeparator(Ticker.NormalizeAsWritten(Some(asxCode)));
  }

  const DefaultRecipient := "test@gmail.com"

  /** `_canonical_recipient(recipient)`: stripped and lower-cased, the default address when blank. */
  function CanonicalRecipient(recipient: string): (r: string)
    ensures |r| > 0
  {
    var value := Lower(Strip(recipient));
    if |value| == 0 then DefaultRecipient else value
  }

  const Separator := "|"

  /** `_request_key(asx_code, recipient, send_email)`. */
  function Key(asxCode: string, recipient: string, sendEmail: bool): (k: string)
    ensures StartsWith(k, CanonicalTicker(asxCode) + Separator)
    ensures EndsWith(k, Separator + Report.BoolText(sendEmail))
  {
    var t, r, f := CanonicalTicker(asxCode), CanonicalRecipient(recipient), Report.BoolText(sendEmail);
    JoinThree(t, r, f);
    Join([t, r, f], Separator)
  }

  /** Three parts joined by the separator: the first one and the last one are at the ends. */
  lemma JoinThree(t: string, r: string, f: string)
    ensures Join([t, r, f], Separator) == t + Separator + (r + Separator + f)
    ensures StartsWith(Join([t, r, f], Separator), t + Separator)
    ensures EndsWith(Join([t, r, f], Separator), Separator + f)
  {
    var parts := [t, r, f];
    assert parts[1..][1..] == [f];
    assert Join(parts[1..], Separator) == r + Separator + f;
    var k := t + Separator + (r + Separator + f);
    assert k[..|t + Separator|] == t + Separator;
    assert k[|k| - |Separator + f|..] == Separator + f;
  }

  /** `max(0, int(raw))` for the variable's value, the default when unset or not an integer. */
  function WindowSeconds(raw: Option<string>, default: nat): (w: nat)
    ensures raw.None? ==> w == default
    ensures raw.Some? && ParseInt(raw.value).Some? ==> w == if ParseInt(raw.value).value < 0 then 0 else ParseInt(raw.value).value
    ensures raw.Some? && ParseInt(raw.value).None? ==> w == default
  {
    ParseIntToString(default);
    var text := match raw case Some(r) => r case None => IntToString(default);
    match ParseInt(text)
    case Some(n) => if n < 0 then 0 else n
    case None => default
  }

  /** `_dedupe_window_seconds()`: `MCP_DEDUPE_SECONDS`, 90 by default. */
  function DedupeWindow(raw: Option<string>): (w: nat)
    ensures raw.None? ==> w == 90
  {
    WindowSeconds(raw, 90)
  }

  /** `_error_dedupe_window_seconds()`: `MCP_ERROR_DEDUPE_SECONDS`, 25 by default. */
  function ErrorDedupeWindow(raw: Option<string>): (w: nat)
    ensures raw.None? ==> w == 25
  {
    WindowSeconds(raw, 25)
  }
}
