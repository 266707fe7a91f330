# ASX chart report agent, modelled in Dafny

This project models the core of the ASX chart report agent. The agent is an MCP server tool. It
captures a Yahoo Finance chart for an ASX ticker, puts it in a Word document, converts that
to PDF and optionally e-mails it. The model covers these parts:

- **Ticker canonicalisation** (`normalize_asx_code`) and the quote URL (`build_asx_url`). The
  regular expressions become scanners, and `urlparse`/`parse_qs` are modelled as far as the
  normaliser uses them (modules `Text`, `Url`, `Ticker`; properties in `TickerProps`,
  `StopwordProps` and `QuoteUrl`).
- **Settings and the output directory** (`_safe_int_env`, `_safe_bool_env`,
  `_is_placeholder_output_dir`, `_resolve_output_dir`); module `Pipeline`.
- **DOCX-to-PDF conversion** (`_convert_docx_to_pdf_with_libreoffice`,
  `convert_docx_to_pdf`). It runs on a `Disk` class, a map from path to file size, which the
  methods update in place. Each method is proved equal to a chain of pure steps (module
  `Convert`; properties in `ConvertProps`).
- **The report run** (`run_asx_report`): its sequencing, the artefact names, the default
  texts and the returned fields. The capture, renderer, converter and Mail delivery are
  collaborators given by their outcomes (modules `Report`, `ReportProps`).
- **The server's de-duplication** (src/asx_mcp/server.py): the request key, the two windows,
  cache pruning, and the result cache, failure cache and in-flight table of
  `create_asx_report`. These are a `Server` class whose methods are proved equal to pure
  steps (modules `RequestKey`, `KeyProps`, `Coordinator`, `CoordinatorProps`).

Environment variables are inputs: the variable's value, or `None` when unset. The same goes
for the clock readings and the filesystem's answers.

Two behaviours of the code worth knowing:

- **Normalising is not idempotent.** `normalize_asx_code("X.AX")` is `"X"`, but
  `normalize_asx_code("X")` is `None` (`TickerProps.OneLetterResultNotFixed`).
- **Both caches can hold a key.** The result cache and the failure cache are not mutually
  exclusive. A failure leaves an older cached success in place
  (`CoordinatorProps.FailureTouches`), although a success does remove the failure.

The model follows the code as written, including the defect listed under "## Findings":
`run_asx_report`, `_canonical_ticker` and `_request_key` are modelled on the as-written
normaliser (`Ticker.NormalizeAsWritten`), so `"https://ft.com"` canonicalises to `HTTPS`.
The corrected normaliser (`Ticker.Normalize`) is proved to remove URLs before the free-text
scans. The normaliser's lemmas are stated for both clean-ups, through `Ticker.NormalizeWith`.

`create_asx_report` can only suspend at `await task`: it holds the in-flight lock across no
await. So admission, from pruning to registering an execution, is one atomic step, and each
completion is another.

## Model

| member | source | states |
|---|---|---|
| Ticker.NormalizeWith | src/asx_mcp/pipeline.py:102-168 | missing or blank input gives `None`; any code returned is 1–6 characters from `A-Z0-9.` and not all digits |
| Ticker.NormalizeAsWritten | src/asx_mcp/pipeline.py:102-168 | `normalize_asx_code` as written: missing or blank input gives `None`; any code returned is ticker-shaped |
| Ticker.Normalize | src/asx_mcp/pipeline.py:102-168 | the corrected normaliser keeps the same guarantees: blank gives `None`, any code is ticker-shaped |
| Ticker.DotAxCode | src/asx_mcp/pipeline.py:113-115 | a result `c` satisfies `upper == c + ".AX"`, and `c` is 1–6 upper-case letters or digits, not all digits |
| Ticker.SuffixedCode | src/asx_mcp/pipeline.py:129-133 | a code cut from a `.AX` part is ticker-shaped and not a stopword |
| Ticker.SegmentCode | src/asx_mcp/pipeline.py:126-133 | the code found in the path parts is ticker-shaped and not a stopword |
| Ticker.QueryCode | src/asx_mcp/pipeline.py:135-142 | the code found in a `p`/`symbol` query value is ticker-shaped and not a stopword |
| Ticker.UrlCode | src/asx_mcp/pipeline.py:121-144 | the URL strategy only yields ticker-shaped non-stopwords (its order: `TickerProps.UrlCodeOrder`) |
| Ticker.UrlLen | src/asx_mcp/pipeline.py:122 | a match of `https?://\S+` is at least 8 characters and within the text |
| Ticker.FindUrl | src/asx_mcp/pipeline.py:122 | a URL found by the search is at least 8 characters long and lies within the text; `TickerProps.FindUrlIsLeftmost` and `TickerProps.FindUrlFailsEverywhere` prove which one it is and when there is none |
| Ticker.CleanPart | src/asx_mcp/pipeline.py:129 | the cleaned part holds only `A-Z`, `0-9` and `.`, is never longer than the part, and an upper-cased part that is already clean is kept whole (the same `re.sub` is applied at lines 137-138) |
| Ticker.Substitute | src/asx_mcp/pipeline.py:146-147 | `re.sub` never makes the text longer, and a pattern that matches at no position leaves the text as it was |
| Ticker.SubstituteChars | src/asx_mcp/pipeline.py:146-147 | every character `re.sub` leaves is either the replacement space or a character of the input |
| Ticker.CleanText | src/asx_mcp/pipeline.py:146-147 | the cleaned text is never longer than the upper-cased request and holds only spaces and the request's own characters; which URLs and addresses it removes is stated by `TickerProps.AsWrittenKeepsUrls`, `TickerProps.UrlsRemoved` and `TickerProps.TextScanSeesNoUrl` |
| Ticker.EmailLen | src/asx_mcp/pipeline.py:147 | a match of the e-mail pattern is non-empty and within the text |
| Ticker.TopLevelEnd | src/asx_mcp/pipeline.py:147 | the greedy domain-and-TLD match ends after its start and within the text |
| Ticker.CodeAt | src/asx_mcp/pipeline.py:150-153 | a captured `[A-Z0-9]{2,6}` group is 2–6 upper-case letters or digits |
| Ticker.KeywordEnd | src/asx_mcp/pipeline.py:150-153 | a matched keyword ends within the text, after the start |
| Ticker.SeparatorEnd | src/asx_mcp/pipeline.py:150-153 | a matched separator ends within the text, after the keyword |
| Ticker.MarkerAt | src/asx_mcp/pipeline.py:150-157 | a marker match yields a 2–6 character alphanumeric code |
| Ticker.SearchMarker | src/asx_mcp/pipeline.py:155 | a `re.search` hit yields a 2–6 character alphanumeric code |
| Ticker.MarkerCode | src/asx_mcp/pipeline.py:149-159 | the marker strategy yields a clean code that is not a stopword |
| Ticker.TokenAt | src/asx_mcp/pipeline.py:161 | a `\b[A-Z][A-Z0-9]{1,5}\b` token is a clean code starting with a letter |
| Ticker.FirstToken | src/asx_mcp/pipeline.py:161-166 | the token scan yields a clean code that is not a stopword |
| Ticker.TextCode | src/asx_mcp/pipeline.py:149-166 | free-text extraction yields a clean code that is not a stopword |
| Ticker.BuildAsxUrl | src/asx_mcp/pipeline.py:171-173 | the URL starts with `https://au.finance.yahoo.com/quote/` and ends with `.AX/` |
| TickerProps.DotAxFormAnyCase | src/asx_mcp/pipeline.py:106-115 | any padding and letter case of `<CODE>.AX` with a 1–6 character non-numeric code normalises to the code, with either URL clean-up |
| TickerProps.CleanInputTrusted | src/asx_mcp/pipeline.py:117-119 | input whose stripped upper-case form is a clean code normalises to that form, with either URL clean-up |
| TickerProps.CleanHasNoSuffix | src/asx_mcp/pipeline.py:113-119 | a clean code never matches the `.AX` strategy, so the two strategies do not overlap |
| TickerProps.CleanCodeFixedPoint | src/asx_mcp/pipeline.py:113-119 | a clean code normalises to itself, with either URL clean-up |
| TickerProps.OneLetterResultNotFixed | src/asx_mcp/pipeline.py:113-168 | `X.AX` normalises to `X`, but `X` normalises to `None`: normalising is not idempotent, with either URL clean-up |
| TickerProps.OneLetterText | src/asx_mcp/pipeline.py:106-119 | the intermediate forms of `X.AX` and `X` for one letter `X` |
| TickerProps.SingleLetterFindsNothing | src/asx_mcp/pipeline.py:121-166 | a lone letter yields nothing from the URL, marker or token strategies, and either clean-up leaves it unchanged |
| TickerProps.ShortTextHasNoKeyword | src/asx_mcp/pipeline.py:150-153 | fewer than three characters left never match a marker keyword |
| TickerProps.NoTokenAnywhere | src/asx_mcp/pipeline.py:161-166 | the token scan fails exactly when no position holds a qualifying token |
| TickerProps.FirstTokenInReadingOrder | src/asx_mcp/pipeline.py:161-166 | the token returned is the leftmost qualifying one |
| TickerProps.SearchFailsEverywhere | src/asx_mcp/pipeline.py:155 | a marker search fails exactly when the marker matches at no position |
| TickerProps.FindUrlFailsEverywhere | src/asx_mcp/pipeline.py:122 | the URL search finds nothing exactly when the URL pattern matches at no position of the text |
| TickerProps.FindUrlIsLeftmost | src/asx_mcp/pipeline.py:122 | the URL found is the whole match at the leftmost position where the URL pattern matches |
| TickerProps.SearchIsLeftmost | src/asx_mcp/pipeline.py:155 | a marker search returns the match at the leftmost matching position |
| TickerProps.MarkersInOrder | src/asx_mcp/pipeline.py:149-159 | the result is the first marker, in the source's order, whose match is accepted; no code when none is |
| TickerProps.MarkersBeforeTokens | src/asx_mcp/pipeline.py:149-166 | an accepted marker match wins over every token; only when none exists does the token scan decide |
| TickerProps.KeywordNeedsItsChars | src/asx_mcp/pipeline.py:150-153 | a keyword with a character absent from the text cannot match |
| TickerProps.MarkerNeedsItsChars | src/asx_mcp/pipeline.py:150-155 | a marker whose keywords each miss a character of the text finds nothing |
| TickerProps.UrlStartIsWord | src/asx_mcp/pipeline.py:146 | a URL match starts with its scheme and one more non-space character |
| TickerProps.UrlOfSameStart | src/asx_mcp/pipeline.py:146 | any text with the same scheme prefix and next character also starts a URL match |
| TickerProps.SubstituteKeepsLeadingWord | src/asx_mcp/pipeline.py:146-147 | a non-space prefix of the substituted text is a prefix of the original |
| TickerProps.NoNewUrlAtStart | src/asx_mcp/pipeline.py:146-147 | substitution creates no URL at the start of the text |
| TickerProps.SpaceThenNoUrl | src/asx_mcp/pipeline.py:146 | a space before URL-free text keeps it URL-free |
| TickerProps.CharThenNoUrl | src/asx_mcp/pipeline.py:146 | a non-URL-starting character before URL-free text keeps it URL-free |
| TickerProps.UrlsRemoved | src/asx_mcp/pipeline.py:146 | case-insensitive URL substitution leaves no URL match anywhere |
| TickerProps.NoUrlSuffix | src/asx_mcp/pipeline.py:146 | every suffix of URL-free text is URL-free |
| TickerProps.UrlsStayRemoved | src/asx_mcp/pipeline.py:147 | the e-mail substitution cannot create a URL |
| TickerProps.TextScanSeesNoUrl | src/asx_mcp/pipeline.py:146-147 | the corrected clean-up leaves no URL for the marker and token scans |
| TickerProps.ExactCaseRemovalIsIdentity | src/asx_mcp/pipeline.py:146 | the case-sensitive URL pattern removes nothing from text without a lower-case `h` |
| TickerProps.AsWrittenKeepsUrls | src/asx_mcp/pipeline.py:110-147 | as written, the clean-up of the upper-cased text only removes e-mail addresses |
| TickerProps.NoAtNoEmail | src/asx_mcp/pipeline.py:147 | text without `@` holds no e-mail address |
| TickerProps.FtText | src/asx_mcp/pipeline.py:106-119 | `https://ft.com` is unpadded, upper-cases to `HTTPS://FT.COM` and fails the first two strategies |
| TickerProps.FtFound | src/asx_mcp/pipeline.py:122 | the URL search finds all of `https://ft.com` |
| TickerProps.FtUnpunctuated | src/asx_mcp/pipeline.py:125 | stripping punctuation leaves `https://ft.com` unchanged |
| TickerProps.FtScheme | src/asx_mcp/pipeline.py:125 | `urlparse` splits off the scheme `https` |
| TickerProps.FtParsed | src/asx_mcp/pipeline.py:125 | `urlparse("https://ft.com")` has netloc `ft.com` and an empty path and query |
| TickerProps.FtAuthority | src/asx_mcp/pipeline.py:125 | after `//`, the authority of `https://ft.com` is `ft.com`, nothing follows it, and it holds no bracket |
| TickerProps.FtNoUrlCode | src/asx_mcp/pipeline.py:121-144 | the URL strategy finds no code in `https://ft.com` |
| TickerProps.FtIntendedText | src/asx_mcp/pipeline.py:146 | with case-insensitive URL removal, `HTTPS://FT.COM` cleans to a blank |
| TickerProps.FtUrlLen | src/asx_mcp/pipeline.py:146 | the case-insensitive URL pattern matches all of `HTTPS://FT.COM` |
| TickerProps.WholeMatchSubstituted | src/asx_mcp/pipeline.py:146-147 | a match spanning the whole text is replaced by one space |
| TickerProps.BlankHasNoCode | src/asx_mcp/pipeline.py:149-168 | a blank yields no code |
| TickerProps.FtMarkers | src/asx_mcp/pipeline.py:149-159 | no marker matches in `HTTPS://FT.COM` |
| TickerProps.AsWrittenUntouched | src/asx_mcp/pipeline.py:146-147 | as written, the clean-up leaves text with no lower-case `h` and no `@` unchanged |
| TickerProps.FtFirstToken | src/asx_mcp/pipeline.py:161-166 | the token scan of `HTTPS://FT.COM` returns `HTTPS` |
| TickerProps.FtPlainChars | src/asx_mcp/pipeline.py:146-147 | `HTTPS://FT.COM` holds no lower-case `h` and no `@` |
| TickerProps.FtAsWritten | src/asx_mcp/pipeline.py:102-168 | as written, `normalize_asx_code("https://ft.com")` is `"HTTPS"` |
| TickerProps.FtIntended | src/asx_mcp/pipeline.py:102-168 | with the URL pattern matched regardless of case, `normalize_asx_code("https://ft.com")` is `None` |
| TickerProps.EmptyPathNoCode | src/asx_mcp/pipeline.py:126-133 | an empty URL path has no segment ending in `.AX` |
| TickerProps.EmptyQueryNoCode | src/asx_mcp/pipeline.py:135-142 | an empty query has no `p` or `symbol` value ending in `.AX` |
| TickerProps.SegmentCodeNone | src/asx_mcp/pipeline.py:128-133 | the path strategy finds nothing exactly when no path part yields a code |
| TickerProps.SegmentCodeFirst | src/asx_mcp/pipeline.py:128-133 | the path strategy returns the code of the first path part that yields one |
| TickerProps.UrlCodeOrder | src/asx_mcp/pipeline.py:121-144 | a qualifying path part wins over any query; with none, `p` is consulted before `symbol` |
| StopwordProps.MarkersArePlain | src/asx_mcp/pipeline.py:149-154 | every marker keyword is an upper-case word, and where the separator may be empty no stopword continues it |
| StopwordProps.MarkerCaptureIsWord | src/asx_mcp/pipeline.py:150-157 | a marker matched at a position captures a whole word of the text |
| StopwordProps.SearchCaptureIsWord | src/asx_mcp/pipeline.py:155-157 | the code a marker search returns is a whole word of the text |
| StopwordProps.StopwordTextHasNoCode | src/asx_mcp/pipeline.py:149-166 | text made only of stopwords yields no marker code and no token |
| StopwordProps.NoColonRemovesNoUrl | src/asx_mcp/pipeline.py:146 | text without `:` loses nothing to URL removal, in either case mode |
| StopwordProps.PlainTextScannedAsIs | src/asx_mcp/pipeline.py:121-147 | text without `:` or `@` has no URL code and reaches the scans unchanged |
| StopwordProps.NormalizedByScans | src/asx_mcp/pipeline.py:102-168 | such input, failing the first two strategies, normalises to what the marker and token scans find |
| StopwordProps.StopwordsOnlyNone | src/asx_mcp/pipeline.py:102-168 | input made only of stopwords, and not itself a clean code, normalises to `None` |
| StopwordProps.DailyReportRequest | src/asx_mcp/pipeline.py:102-168 | `send the daily report` normalises to `None` |
| StopwordProps.ForMarkerFinds | src/asx_mcp/pipeline.py:152-155 | the `FOR` marker search finds the code after a final `FOR ` |
| StopwordProps.CslRequestNormalised | src/asx_mcp/pipeline.py:102-168 | `please send me the report for csl` normalises to `CSL`, although the token `ME` qualifies earlier: markers are tried before tokens |
| TickerProps.UrlTextCounterexample | src/asx_mcp/pipeline.py:146 | as written, `normalize_asx_code("https://ft.com")` is `"HTTPS"`; corrected, it is `None` |
| Url.Parse | src/asx_mcp/pipeline.py:125 | when `urlparse` accepts the URL, its authority holds both or neither of `[` and `]` and no `/`, `?` or `#`, its path holds no `?` or `#`, and its query no `#`; the exact parts of the URLs the normaliser meets are computed by `QuoteUrl.QuoteUrlParsed` and `TickerProps.FtParsed` |
| Url.SplitNetloc | src/asx_mcp/pipeline.py:125 | the authority ends before the first `/`, `?` or `#` after `//` |
| Url.SplitOnce | src/asx_mcp/pipeline.py:125 | the part before the cut does not hold the separator, and the two parts are a prefix and a suffix of the text |
| Url.SplitParams | src/asx_mcp/pipeline.py:125 | the path kept when `;params` are split off is a prefix of the text it was cut from |
| Url.Segments | src/asx_mcp/pipeline.py:126 | each segment of the path is non-empty and holds no `/`; `QuoteUrl.SegmentsStep` gives one step of the split |
| Url.Unquote | src/asx_mcp/pipeline.py:135 | decoding never lengthens a name or value, keeps it empty exactly when it was empty, and leaves one without `%` and `+` unchanged |
| Url.FieldValue | src/asx_mcp/pipeline.py:135-137 | a query field gives a value only when it holds `=` and its decoded name is the key, and that value is never empty (`parse_qs` drops blank values) |
| Url.FirstValue | src/asx_mcp/pipeline.py:135-137 | the first value recorded under a key is never empty, and a query without `=` records none |
| Text.ParseInt | src/asx_mcp/pipeline.py:179 | `int(raw)` (also at server.py lines 50 and 58): a blank text raises, and a text of digits is read as its decimal value; `Text.ParseIntToString` proves that `int(str(n)) == n` for every integer |
| QuoteUrl.DefaultTicker | src/asx_mcp/pipeline.py:171-173 | no ticker, or an empty one, gives the `HUB.AX` quote URL |
| QuoteUrl.UpperHasNoDot | src/asx_mcp/pipeline.py:172 | upper-casing adds no `.` |
| QuoteUrl.PlainTicker | src/asx_mcp/pipeline.py:171-173 | a dot-free ticker gives `…/quote/<UPPER>.AX/` |
| QuoteUrl.RemoveAllKeepsPrefix | src/asx_mcp/pipeline.py:172 | `replace(".AX", "")` keeps a prefix that has no `.` |
| QuoteUrl.RemoveAllSkips | src/asx_mcp/pipeline.py:172 | `replace` passes over a character that cannot start the pattern |
| QuoteUrl.SuffixDropped | src/asx_mcp/pipeline.py:171-173 | a ticker with a `.AX` suffix in any case gives the same URL as without it |
| QuoteUrl.QuotePath | src/asx_mcp/pipeline.py:173 | the path `/quote/<CODE>.AX/` is 11 characters longer than the code |
| QuoteUrl.QuotePathChars | src/asx_mcp/pipeline.py:173 | that path holds no `#`, `?` or `;` |
| QuoteUrl.QuoteUrlShape | src/asx_mcp/pipeline.py:171-173 | a quotable code's URL is scheme, Yahoo host, then its quote path |
| QuoteUrl.QuoteUrlChars | src/asx_mcp/pipeline.py:173 | the URL has no whitespace |
| QuoteUrl.QuoteUrlFound | src/asx_mcp/pipeline.py:122 | the URL search finds the whole quote URL |
| QuoteUrl.QuoteUrlUnpadded | src/asx_mcp/pipeline.py:106-125 | stripping whitespace or punctuation leaves the quote URL unchanged |
| QuoteUrl.QuoteUrlScheme | src/asx_mcp/pipeline.py:125 | `urlparse` takes the scheme `https` off the quote URL |
| QuoteUrl.QuoteUrlAuthority | src/asx_mcp/pipeline.py:125 | the netloc of the quote URL is `au.finance.yahoo.com` |
| QuoteUrl.PathWithoutDelimiters | src/asx_mcp/pipeline.py:125 | a path without `#`/`?` has no fragment or query |
| QuoteUrl.QuoteUrlParsed | src/asx_mcp/pipeline.py:125 | `urlparse` of the quote URL gives exactly its parts |
| QuoteUrl.SegmentsStep | src/asx_mcp/pipeline.py:126 | splitting on `/` and dropping empty parts, one segment at a time |
| QuoteUrl.QuotePathSegments | src/asx_mcp/pipeline.py:126 | the quote path's non-empty parts are `quote` and `<CODE>.AX` |
| QuoteUrl.QuoteWordRejected | src/asx_mcp/pipeline.py:129-133 | the part `quote` yields no code |
| QuoteUrl.CodeSegmentAccepted | src/asx_mcp/pipeline.py:129-133 | the part `<CODE>.AX` yields the code |
| QuoteUrl.QuoteSegmentCode | src/asx_mcp/pipeline.py:126-133 | the quote path's parts yield the code |
| QuoteUrl.QuoteUrlCode | src/asx_mcp/pipeline.py:121-133 | the URL strategy reads the code back out of the quote URL |
| QuoteUrl.QuoteUrlNotACode | src/asx_mcp/pipeline.py:113-119 | a URL ending in `/` fails the first two strategies |
| QuoteUrl.NormalizeByUrl | src/asx_mcp/pipeline.py:102-133 | input that fails the first two strategies and holds a URL with a code normalises to that code |
| QuoteUrl.NormalizeReadsQuoteUrl | src/asx_mcp/pipeline.py:102-173 | round trip: normalising `build_asx_url(c)` gives back `c` for every quotable code `c` |
| Pipeline.SafeIntEnv | src/asx_mcp/pipeline.py:176-181 | the value is never below the minimum |
| Pipeline.SafeIntEnvUnset | src/asx_mcp/pipeline.py:176-181 | unset gives `max(minimum, default)` |
| Pipeline.SafeIntEnvSet | src/asx_mcp/pipeline.py:176-181 | an integer gives `max(minimum, n)`; anything else gives `max(minimum, default)` |
| Pipeline.LibreOfficeTimeout | src/asx_mcp/pipeline.py:462-466 | the LibreOffice timeout is at least 30 seconds |
| Pipeline.LibreOfficeTimeoutDefault | src/asx_mcp/pipeline.py:462-466 | unset gives 120 seconds |
| Pipeline.SafeBoolEnvForms | src/asx_mcp/pipeline.py:184-188 | a set variable's truth ignores the default, its padding and its letter case |
| Pipeline.SafeBoolEnv | src/asx_mcp/pipeline.py:184-188 | unset gives the default; a set but blank value is false; a true value is 1–4 characters once stripped |
| Pipeline.IsPlaceholderOutputDir | src/asx_mcp/pipeline.py:594-596 | a placeholder, once stripped, is at least as long as `path/to/local/directory`, so a blank path is never one |
| Pipeline.Fallbacks | src/asx_mcp/pipeline.py:618-620 | three fallback directories: `output` first, `/tmp/asx-mcp-output` last, and between them a directory named `asx-mcp-output` under the Desktop |
| Pipeline.JoinPathParts | src/asx_mcp/pipeline.py:654-656 | `Path(dir) / name` ends with the name and, unless `dir` is `.` or empty, starts with `dir` |
| Pipeline.Candidates | src/asx_mcp/pipeline.py:611-620 | the list ends with the three fallbacks, and starts with the request exactly when it is non-blank and not a placeholder |
| Pipeline.Dedup | src/asx_mcp/pipeline.py:622-629 | the unique candidates are no more than, and drawn from, the candidates |
| Pipeline.PlaceholderSpelling | src/asx_mcp/pipeline.py:52-55 | each placeholder is unpadded, has no trailing `/` and no `\` |
| Pipeline.PlaceholderForms | src/asx_mcp/pipeline.py:594-596 | a placeholder in any case, followed by any `/` or `\` characters, is recognised |
| Pipeline.FirstSatisfying | src/asx_mcp/pipeline.py:631-633 | the result is the element at the first index satisfying the test; none means no entry satisfies it |
| Pipeline.ResolvedOutputDir | src/asx_mcp/pipeline.py:610-638 | success: the first writable unique candidate. Failure: no unique candidate is writable, with message `No writable output directory available. Tried: ` and the candidates joined by `, ` |
| Pipeline.BuildCandidates | src/asx_mcp/pipeline.py:611-620 | builds the candidate list: the usable request, then `output`, the Desktop folder and `/tmp/asx-mcp-output` |
| Pipeline.DedupByKey | src/asx_mcp/pipeline.py:622-629 | the loop keeps exactly the deduplicated list |
| Pipeline.FirstWritable | src/asx_mcp/pipeline.py:631-633 | the loop returns the first writable candidate |
| Pipeline.ResolveOutputDir | src/asx_mcp/pipeline.py:610-638 | the method returns the resolved directory or the error above |
| Pipeline.FirstSatisfyingIsFirst | src/asx_mcp/pipeline.py:631-633 | the chosen directory is the first writable one in order |
| Pipeline.FirstWithKeyAppend | src/asx_mcp/pipeline.py:624-629 | the first entry with a key, after one more entry |
| Pipeline.FirstWithKeyFound | src/asx_mcp/pipeline.py:624-629 | an entry with key `k` exists exactly when `k` is one of the keys |
| Pipeline.DedupKeepsFirstOfEachKey | src/asx_mcp/pipeline.py:622-629 | after dedup the keys are pairwise distinct, every key survives, and each survivor is the first with its key |
| Pipeline.DedupIsSubsequence | src/asx_mcp/pipeline.py:622-629 | the unique candidates keep the candidates' order: they sit at strictly increasing positions of the list |
| Pipeline.PlaceholderStripped | src/asx_mcp/pipeline.py:611 | padding a placeholder with separators leaves nothing to strip |
| Pipeline.PlaceholderNeverTried | src/asx_mcp/pipeline.py:611-620 | a placeholder request (any case, trailing separators, kept or dropped by the path expansion) is never a candidate; only the fallbacks are |
| Pipeline.BlankRequestNeverTried | src/asx_mcp/pipeline.py:611-620 | a blank request gives only the fallbacks |
| Convert.Disk.Store | src/asx_mcp/pipeline.py:485 | a converter leaving a file of a given size at a path; nothing else changes |
| Convert.Disk.Remove | src/asx_mcp/pipeline.py:496 | `unlink` removes exactly that path; nothing else changes |
| Convert.Disk.Move | src/asx_mcp/pipeline.py:434 | `shutil.move` of an existing file: the destination gets its size, the source is gone |
| Convert.Disk.Copy | src/asx_mcp/pipeline.py:522 | `shutil.copy2`: the destination gets the source's size |
| Convert.LibreOfficeStep | src/asx_mcp/pipeline.py:388-438 | no error means the output is a non-empty file; a missing binary gives `LibreOffice binary not found` and touches nothing |
| Convert.LibreOfficeConvert | src/asx_mcp/pipeline.py:388-438 | the method's error and new disk are those of `LibreOfficeStep` |
| Convert.Failure | src/asx_mcp/pipeline.py:480-481 | raises `PDF conversion failed for <input>. Details: …` |
| Convert.Conversion | src/asx_mcp/pipeline.py:441-551 | success returns the output path, which is a non-empty file; failure starts with `PDF conversion failed for <input>. Details: ` |
| Convert.RunConverter | src/asx_mcp/pipeline.py:484-487 | one converter run on the disk, with its message recorded under its prefix |
| Convert.MoveFile | src/asx_mcp/pipeline.py:505-510 | a move, or its message recorded |
| Convert.InPlaceConvert | src/asx_mcp/pipeline.py:492-510 | the in-place attempt on the disk agrees with `InPlaceAttempt` |
| Convert.SetUpStaging | src/asx_mcp/pipeline.py:521-526 | staging setup agrees with `StagingSetup` |
| Convert.StagedConvert | src/asx_mcp/pipeline.py:515-543 | the staging attempt, including the staged DOCX clean-up, agrees with `StagingAttempt` |
| Convert.ConvertDocxToPdf | src/asx_mcp/pipeline.py:441-551 | `convert_docx_to_pdf` with the engine and timeout read from their variables agrees with `Conversion` |
| Convert.ConvertWith | src/asx_mcp/pipeline.py:468-551 | the attempts in order agree with `Conversion` |
| ConvertProps.LibreOfficeSucceedsIff | src/asx_mcp/pipeline.py:393-438 | LibreOffice succeeds iff the binary exists, the run raises nothing, it leaves a non-empty PDF, and any needed move succeeds |
| ConvertProps.LibreOfficeMovesOnlyElsewhere | src/asx_mcp/pipeline.py:432-434 | the PDF is moved only when it was generated at a different path |
| ConvertProps.LibreOfficeNeedsOutput | src/asx_mcp/pipeline.py:423-428 | a missing PDF gives `did not output`; an empty one gives `output is empty` |
| ConvertProps.EngineOfWord | src/asx_mcp/pipeline.py:455-457 | a non-empty lower-case engine name is used as given |
| ConvertProps.EngineDefault | src/asx_mcp/pipeline.py:455-457 | an unset or empty `ASX_PDF_ENGINE` is `auto` |
| ConvertProps.AutoAllowsBoth | src/asx_mcp/pipeline.py:459-460 | `auto` allows both LibreOffice and docx2pdf |
| Convert.AllowsLibreOffice | src/asx_mcp/pipeline.py:459 | `auto` allows LibreOffice, and every other engine that allows it rules docx2pdf out |
| Convert.AllowsDocx2Pdf | src/asx_mcp/pipeline.py:460 | `auto` allows docx2pdf, and every other engine that allows it rules LibreOffice out |
| ConvertProps.LibreOfficeOnlyWhenAllowed | src/asx_mcp/pipeline.py:468-477 | an engine that excludes LibreOffice never consults it |
| ConvertProps.Docx2PdfOnlyWhenAllowed | src/asx_mcp/pipeline.py:479-481 | an engine that excludes docx2pdf never consults it |
| ConvertProps.UnsupportedEngineFails | src/asx_mcp/pipeline.py:479-481 | an unknown engine fails with `unsupported ASX_PDF_ENGINE: <engine>` and touches nothing |
| Convert.Engine | src/asx_mcp/pipeline.py:455-457 | the engine is never empty; a blank setting means `auto` |
| Convert.RecordAppends | src/asx_mcp/pipeline.py:484-487 | recording a raised exception appends one message under its prefix and keeps the earlier ones |
| Convert.DirectAttempt | src/asx_mcp/pipeline.py:483-487 | attempt 1 only appends `docx2pdf direct convert failed: ` messages and changes no file but the output |
| Convert.InPlaceAttempt | src/asx_mcp/pipeline.py:492-510 | attempt 2 only appends in-place convert and move failures, after the earlier messages |
| Convert.InPlaceRecords | src/asx_mcp/pipeline.py:498-510 | the in-place convert failure, then the move failure, each extend the messages |
| Convert.StagingSetup | src/asx_mcp/pipeline.py:520-526 | the set-up only appends a `staging setup failed: ` message and changes only the staged DOCX and PDF |
| Convert.StagingRecords | src/asx_mcp/pipeline.py:520-538 | the set-up, convert and move failures of attempt 3 each extend the messages, in that order |
| Convert.StagingAttempt | src/asx_mcp/pipeline.py:515-543 | attempt 3 only appends set-up, staging convert and staging move failures, after the earlier messages |
| Convert.AfterLibreOffice | src/asx_mcp/pipeline.py:468-475 | the LibreOffice stage records at most one error, and none exactly when LibreOffice is not allowed or succeeded |
| Convert.WordAttempts | src/asx_mcp/pipeline.py:483-551 | the docx2pdf attempts return the output path only as a non-empty file, and otherwise raise the conversion failure |
| ConvertProps.LibreOfficeSuccessEnds | src/asx_mcp/pipeline.py:474-477 | LibreOffice success ends the conversion with the output |
| ConvertProps.DirectSuccessEnds | src/asx_mcp/pipeline.py:483-490 | a direct conversion that leaves a usable PDF ends the conversion; later attempts are never consulted |
| ConvertProps.InPlaceSuccessEnds | src/asx_mcp/pipeline.py:492-513 | a usable PDF after the in-place attempt ends the conversion; the staging attempt is never consulted |
| ConvertProps.FailuresInOrder | src/asx_mcp/pipeline.py:474-551 | with no LibreOffice binary, no earlier output, no staging fault and each attempt raising without output, the details are the four messages in attempt order, joined by `; ` |
| ConvertProps.FailureReportsStagesInOrder | src/asx_mcp/pipeline.py:468-551 | every failure with docx2pdf allowed reports the LibreOffice message (when LibreOffice was allowed), then what the direct, in-place and staging attempts recorded, in that order |
| ConvertProps.SilentFailure | src/asx_mcp/pipeline.py:548-551 | attempts that raise nothing and produce nothing give `unknown error` |
| ConvertProps.SameExceptChain | src/asx_mcp/pipeline.py:441-551 | changes confined to sets compose |
| ConvertProps.LibreOfficeFrame | src/asx_mcp/pipeline.py:388-438 | LibreOffice touches only the generated PDF and the output |
| ConvertProps.InPlaceFrame | src/asx_mcp/pipeline.py:492-510 | the in-place attempt touches only the PDF beside the DOCX and the output |
| ConvertProps.StagingFrame | src/asx_mcp/pipeline.py:515-543 | the staging attempt touches only the staged DOCX and PDF and the output |
| ConvertProps.StagesFrame | src/asx_mcp/pipeline.py:468-543 | every stage stays within the touched paths |
| ConvertProps.StoppingAttempt | src/asx_mcp/pipeline.py:483-551 | the docx2pdf attempts leave the files of the attempt at which they stopped |
| ConvertProps.StoppingStage | src/asx_mcp/pipeline.py:468-551 | a conversion leaves the files after LibreOffice or those the docx2pdf attempts leave |
| ConvertProps.ConversionFrame | src/asx_mcp/pipeline.py:441-551 | the conversion changes no file other than the output and its intermediates |
| Report.Slug | src/asx_mcp/pipeline.py:649-650 | the slug is never empty |
| Report.ArtifactsIn | src/asx_mcp/pipeline.py:654-656 | the image, DOCX and PDF paths end with the stem and `.png`, `.docx` and `.pdf`, and are three distinct files |
| Report.DefaultSubject | src/asx_mcp/pipeline.py:662 | the default subject starts with `Yahoo Finance Chart Report: ` and the upper-cased slug, and ends with the generation time in parentheses |
| Report.DefaultBody | src/asx_mcp/pipeline.py:663-668 | the default body opens with the fixed sentence and the `Ticker: <SLUG>.AX` line, and ends with the source URL and the generation time; `ReportProps.DefaultTexts` shows these are the texts rendered and mailed |
| Report.Assemble | src/asx_mcp/pipeline.py:686-697 | building the report fails exactly when the capture gave no `capture_selector` |
| Report.AfterCapture | src/asx_mcp/pipeline.py:661-697 | after the capture, two to four calls are made, four only when `send_email` is set |
| Report.RunReport | src/asx_mcp/pipeline.py:641-697 | without a writable directory the run fails and calls nothing; at most four calls, four only when `send_email` is set |
| Report.RunFor | src/asx_mcp/pipeline.py:650-697 | the same, once the ticker is normalised |
| Report.RunAsxReport | src/asx_mcp/pipeline.py:641-697 | the method's result and calls are those of `RunReport` |
| Report.RunForCode | src/asx_mcp/pipeline.py:650-659 | the same, once the ticker is normalised |
| Report.Finish | src/asx_mcp/pipeline.py:661-697 | the steps after the capture agree with `AfterCapture` |
| ReportProps.NoDirectoryNoCalls | src/asx_mcp/pipeline.py:653 | without a writable directory the run fails with that error and calls nothing |
| ReportProps.AfterCaptureOrder | src/asx_mcp/pipeline.py:659-684 | after the capture, calls go capture, render, convert, deliver, with the linking arguments |
| ReportProps.CallsInOrder | src/asx_mcp/pipeline.py:653-684 | each collaborator is called at most once, in order; delivery only with `send_email`; success made every call |
| ReportProps.ArtifactsFlow | src/asx_mcp/pipeline.py:654-684 | the artefacts are `asx-<slug>-<timestamp>.png/.docx/.pdf` in the chosen directory, passed from call to call |
| ReportProps.GivenTextsVerbatim | src/asx_mcp/pipeline.py:662-684 | a non-empty caller subject or body is used verbatim |
| ReportProps.DefaultTexts | src/asx_mcp/pipeline.py:662-668 | the default subject and body name the ticker, the URL and the generation time |
| ReportProps.ReportedFields | src/asx_mcp/pipeline.py:686-697 | the ten returned fields, with their defaults |
| ReportProps.MissingSelectorAfterDelivery | src/asx_mcp/pipeline.py:676-693 | a capture without a selector fails only after the e-mail was sent |
| ReportProps.ReportOfRequest | src/asx_mcp/pipeline.py:641-697 | a successful run reports the caller's recipient and the quote URL of the ticker as the as-written normaliser reads it; a blank ticker reports the `HUB` quote URL |
| RequestKey.SlugHasNoSeparator | src/asx_mcp/server.py:28-29 | a ticker-shaped code, or `HUB`, holds no `|` |
| RequestKey.CanonicalTicker | src/asx_mcp/server.py:28-29 | the as-written normaliser's code, or `HUB` when it gives none; so `HUB` or ticker-shaped |
| RequestKey.CanonicalTickerShape | src/asx_mcp/server.py:28-29 | the canonical ticker, from the as-written normaliser, holds no `|` |
| RequestKey.CanonicalRecipient | src/asx_mcp/server.py:32-34 | the canonical recipient is never empty |
| RequestKey.Key | src/asx_mcp/server.py:37-44 | the key starts with the canonical ticker and `|`, and ends with `|true` or `|false` |
| RequestKey.JoinThree | src/asx_mcp/server.py:38-44 | three parts joined by `|` begin with the first and end with the last |
| RequestKey.WindowSeconds | src/asx_mcp/server.py:47-52 | unset gives the default; an integer `n` gives `max(0, n)`; anything else gives the default |
| RequestKey.DedupeWindow | src/asx_mcp/server.py:47-52 | `MCP_DEDUPE_SECONDS` unset gives 90 |
| RequestKey.ErrorDedupeWindow | src/asx_mcp/server.py:55-60 | `MCP_ERROR_DEDUPE_SECONDS` unset gives 25 |
| KeyProps.RecipientForms | src/asx_mcp/server.py:32-34 | the canonical recipient ignores padding and letter case |
| KeyProps.BlankRecipient | src/asx_mcp/server.py:32-34 | a blank recipient is `test@gmail.com` |
| KeyProps.KeyParts | src/asx_mcp/server.py:37-44 | the key is ticker, recipient and flag joined by `|` |
| KeyProps.SplitAtSeparator | src/asx_mcp/server.py:37-44 | a `|`-free head is recovered from the key |
| KeyProps.FlagMark | src/asx_mcp/server.py:43 | the flag part of the key `…|true` differs from that of `…|false` five characters from the end |
| KeyProps.SplitFlag | src/asx_mcp/server.py:37-44 | the recipient and flag are recovered from `recipient|flag` |
| KeyProps.SameKeyIff | src/asx_mcp/server.py:37-44 | two requests share a key iff their canonical tickers, canonical recipients and flags agree |
| KeyProps.FlagSeparatesKeys | src/asx_mcp/server.py:37-44 | the same request with and without e-mail have different keys |
| KeyProps.RecipientFormSharesKey | src/asx_mcp/server.py:32-44 | a padded or upper-cased recipient shares the request's key |
| KeyProps.WindowUnset | src/asx_mcp/server.py:47-52 | an unset variable gives the default window |
| KeyProps.WindowDefaults | src/asx_mcp/server.py:47-60 | the defaults are 90 and 25 seconds |
| KeyProps.WindowOfInteger | src/asx_mcp/server.py:47-52 | an integer gives itself; a negative one gives 0 |
| KeyProps.WindowOfMalformed | src/asx_mcp/server.py:47-52 | a value that is not an integer gives the default |
| Coordinator.Pruned | src/asx_mcp/server.py:63-76 | kept entries are exactly those within twice a positive window, unchanged |
| Coordinator.PruneEntries | src/asx_mcp/server.py:64-67 | the key-by-key loop yields `Pruned` |
| Coordinator.Annotated | src/asx_mcp/server.py:131-136 | the answer has the result's keys plus `deduplicated`, `dedupe_reason` and `dedupe_window_seconds`, with the given values |
| Coordinator.Decide | src/asx_mcp/server.py:129-159 | a cache answer only for a result within the window; a refusal only for a recorded failure, with its message; attach exactly when in flight, to that task; otherwise start the next task number |
| Coordinator.Admitted | src/asx_mcp/server.py:127-159 | a started execution is registered under the key with a fresh number; otherwise the table and the counter are unchanged |
| Coordinator.Succeeded | src/asx_mcp/server.py:170-174 | the key leaves the table and the failure cache, and the result is cached with its time |
| Coordinator.FailureMessage | src/asx_mcp/server.py:168 | the raised message is `Failed to create Yahoo chart report: ` followed by the failure's own text, which can be read back from it |
| Coordinator.OwnerResult | src/asx_mcp/server.py:175-180 | the owner's answer holds the result's keys plus the three dedupe fields, says `deduplicated` false with reason `none`, and keeps every other field of the result |
| Coordinator.AttachedResult | src/asx_mcp/server.py:182-187 | an attached caller's answer holds the result's keys plus the three dedupe fields, says `deduplicated` true with reason `in-flight`, and keeps every other field of the result |
| Coordinator.Failed | src/asx_mcp/server.py:164-167 | the key leaves the table, the failure is cached with its time, and the result cache is untouched |
| Coordinator.Server.constructor | src/asx_mcp/server.py:22-24 | the caches and the table start empty, a valid state |
| Coordinator.Server.Prune | src/asx_mcp/server.py:63-76 | `_prune_cache` prunes both caches and nothing else |
| Coordinator.Server.Admit | src/asx_mcp/server.py:127-159 | admission agrees with `Admitted` and keeps the state valid |
| Coordinator.Server.CompleteSuccess | src/asx_mcp/server.py:170-180 | the owner's success steps agree with `Succeeded` and keep the state valid; the answer is annotated `false`/`none` |
| Coordinator.Server.CompleteFailure | src/asx_mcp/server.py:161-168 | the owner's failure steps agree with `Failed` and keep the state valid; it raises `Failed to create Yahoo chart report: <message>` |
| CoordinatorProps.ZeroWindowClears | src/asx_mcp/server.py:68-69 | a zero window clears the cache |
| CoordinatorProps.PruneIdempotent | src/asx_mcp/server.py:63-76 | pruning twice at once is pruning once |
| CoordinatorProps.PruneLater | src/asx_mcp/server.py:63-76 | pruning at `t1` then at a later `t2` is pruning at `t2` |
| CoordinatorProps.PruningKeepsDecision | src/asx_mcp/server.py:127-159 | pruning never changes an admission's answer |
| CoordinatorProps.CacheHitExact | src/asx_mcp/server.py:129-136 | a cache answer comes exactly when a result is within the success window, annotated `true`/`recent-cache` |
| CoordinatorProps.SuppressedExact | src/asx_mcp/server.py:138-142 | otherwise, a refusal comes exactly when a failure is within the error window, with its message |
| CoordinatorProps.AttachOrStart | src/asx_mcp/server.py:144-159 | otherwise, admission attaches to the execution in flight, or starts and registers a fresh one |
| CoordinatorProps.AdmitTouches | src/asx_mcp/server.py:127-159 | admission only prunes, and registers only a started task |
| Coordinator.InitialValid | src/asx_mcp/server.py:22-24 | the empty state is valid |
| Coordinator.AdmitKeepsValid | src/asx_mcp/server.py:144-159 | task numbers stay started and distinct per key |
| Coordinator.SucceededKeepsValid | src/asx_mcp/server.py:170-174 | success keeps the state valid |
| Coordinator.FailedKeepsValid | src/asx_mcp/server.py:164-167 | failure keeps the state valid |
| CoordinatorProps.SecondCallerAttaches | src/asx_mcp/server.py:144-159 | a later call with the started task's key attaches to that task |
| CoordinatorProps.SuccessTouches | src/asx_mcp/server.py:170-174 | success removes the key from the table and the failure cache and caches the result; nothing else changes |
| CoordinatorProps.FailureTouches | src/asx_mcp/server.py:164-167 | failure removes the key from the table and caches the message; the result cache is untouched |
| CoordinatorProps.SuccessThenHit | src/asx_mcp/server.py:129-174 | within the success window after a success, the request is answered from the cache |
| CoordinatorProps.FailureThenSuppressed | src/asx_mcp/server.py:138-167 | within the error window after a failure, and with no recent success, the request is refused |
| CoordinatorProps.FailureThenRetry | src/asx_mcp/server.py:138-167 | once the error window has passed, with no recent success, the request starts a new task |
| CoordinatorProps.AnnotatedFields | src/asx_mcp/server.py:131-136 | the annotated answer is the result plus exactly the three dedupe fields |
| CoordinatorProps.OwnerAndAttachedAgree | src/asx_mcp/server.py:175-187 | the owner's and an attached caller's answers differ only in `deduplicated` and `dedupe_reason` |

## Left out

- Browser capture (`capture_asx_graph` and its helpers), Word rendering (`create_word_report`) and
  Mail delivery (`send_email_with_mail_app`) are collaborators given by their outcomes. They
  drive Playwright, python-docx and AppleScript, which a model cannot see.
- `_resolve_libreoffice_binary` and the `subprocess.run` of LibreOffice and docx2pdf are
  represented by their outcomes. So are `Path.home`, `expanduser`, `resolve` and the
  write probe of `_can_write_directory`.
- Concurrency: the asyncio tasks and the lock are not modelled. Each admission and each
  completion is one atomic step. Awaiting a task is not modelled; the caller holds its task
  number.
- Times are integers; `time.monotonic()` and `datetime.now()` readings are inputs.
- Character handling is ASCII only: upper/lower and `\w` cover ASCII letters, and `int()`
  accepts ASCII digits only. Python's whitespace set for `strip` is modelled.
- Url.Parse: only the part of `urlparse`/`parse_qs` the normaliser uses is modelled, with no
  percent-decoding of non-ASCII bytes.
- Convert.LibreOfficeStep: a `stat` that raises (`LibreOffice output check failed`) is not
  modelled, because a file is either present with a size or absent.
- Convert.Disk.Move: moving a missing source is not modelled; every move in the source is
  guarded by an existence check. Convert.Disk.Copy: copying a missing source copies nothing,
  where `shutil.copy2` would raise.
- Convert.ConvertWith: faults of `mkdir` and `unlink` are not modelled. The source swallows
  the faults of the unlinks at src/asx_mcp/pipeline.py:496 and :541. A fault of the unlink of
  the staged PDF (line 524) is caught at lines 525-526 and recorded as
  `staging setup failed: <exc>`; `Convert.StagingSetup` records only the copy fault there.
- Url.Parse: the bracketed-host and NFKC checks with which newer Python versions reject some
  URLs are not modelled; only unbalanced `[`/`]` rejects a URL.
- ReportProps.CallsInOrder: the report lemmas are stated for every normalised code, through
  `RunFor`, rather than through `RunReport` directly.

## Findings

| source | as written | input that shows it | evidently intended | confidence | as-written member | corrected member |
|---|---|---|---|---|---|---|
| src/asx_mcp/pipeline.py:146 | `re.sub(r"https?://\S+", " ", upper)` has no IGNORECASE flag but runs on upper-cased text, so it never removes a URL | `normalize_asx_code("https://ft.com")` returns `"HTTPS"` | URLs removed before the free-text scans, as the case-insensitive search at line 122 does, giving `None` | not executed | Ticker.NormalizeAsWritten, TickerProps.UrlTextCounterexample | Ticker.Normalize, TickerProps.TextScanSeesNoUrl |
