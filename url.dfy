/**
 * The part of Python's `urllib.parse` that the ticker normaliser relies on: `urlparse`
 * (generic syntax `scheme://authority/path;params?query#fragment`, section 3 of RFC 3986)
 * and `parse_qs` looked up for the first value of one key.
 */
module Url {
  import opened Results
  import opened Text

  datatype Parts = Parts(
    scheme: string, netloc: string, path: string, params: string, query: string, fragment: string)

  /** First index at or after `from` holding `c`, or `|s|`: Python's `s.find(c, from)`. */
  function IndexOf(s: string, from: nat, c: char): (k: nat)
    requires from <= |s|
    ensures from <= k <= |s|
    ensures k < |s| ==> s[k] == c
    ensures forall j :: from <= j < k ==> s[j] != c
    decreases |s| - from
  {
    if from == |s| || s[from] == c then from else IndexOf(s, from + 1, c)
  }

  /** `IndexOf` is determined by the position it describes. */
  lemma IndexOfIs(s: string, from: nat, c: char, k: nat)
    requires from <= k <= |s| && (k < |s| ==> s[k] == c)
    requires forall j :: from <= j < k ==> s[j] != c
    ensures IndexOf(s, from, c) == k
  {
  }

  /** First index at or after `from` whose character satisfies `p`, or `|s|`. */
  function FirstWhere(s: string, from: nat, p: char -> bool): (k: nat)
    requires from <= |s|
    ensures from <= k <= |s|
    ensures k < |s| ==> p(s[k])
    ensures forall j :: from <= j < k ==> !p(s[j])
    decreases |s| - from
  {
    if from == |s| || p(s[from]) then from else FirstWhere(s, from + 1, p)
  }

  /** `FirstWhere` is determined by the position it describes. */
  lemma FirstWhereIs(s: string, from: nat, p: char -> bool, k: nat)
    requires from <= k <= |s| && (k < |s| ==> p(s[k]))
    requires forall j :: from <= j < k ==> !p(s[j])
    ensures FirstWhere(s, from, p) == k
  {
  }

  /** Python's `s.rfind(c)`, as an option. */
  function LastIndexOf(s: string, c: char): (k: Option<nat>)
    ensures k.Some? ==> k.value < |s| && s[k.value] == c && forall j :: k.value < j < |s| ==> s[j] != c
    ensures k.None? ==> c !in s
    decreases |s|
  {
    if s == [] then None
    else if s[|s| - 1] == c then Some(|s| - 1)
    else LastIndexOf(s[..|s| - 1], c)
  }

  predicate IsAsciiAlpha(c: char) { IsUpper(c) || IsLower(c) }

  predicate IsSchemeChar(c: char) { IsAsciiAlpha(c) || IsDigit(c) || c == '+' || c == '-' || c == '.' }

  predicate EndsNetloc(c: char) { c == '/' || c == '?' || c == '#' }

  /** The schemes for which `urlparse` splits `;params` off the last path segment. */
  const UsesParams: set<string> := {
    "", "ftp", "hdl", "prospero", "http", "imap", "https", "shttp", "rtsp", "rtsps", "rtspu",
    "sip", "sips", "mms", "sftp", "tel" }

  /** `urlsplit`'s scheme detection: a letter-led run of scheme characters before the first `:`. */
  function SplitScheme(url: string): (string, string) {
    var i := IndexOf(url, 0, ':');
    if 0 < i < |url| && IsAsciiAlpha(url[0]) && All(url[..i], IsSchemeChar)
    then (Lower(url[..i]), url[i + 1..])
    else ("", url)
  }

  /** `_splitparams`: cut at the first `;` after the last `/`. */
  function SplitParams(url: string): (r: (string, string))
    ensures |r.0| <= |url| && r.0 == url[..|r.0|]
  {
    var from := match LastIndexOf(url, '/') case Some(k) => k case None => 0;
    var i := IndexOf(url, from, ';');
    if i == |url| then (url, "") else (url[..i], url[i + 1..])
  }

  /**
   * `urlparse(url)`; `None` when the authority holds one of `[` and `]` without the other,
   * where Python raises `ValueError("Invalid IPv6 URL")`. The further checks with which some
   * Python versions reject a URL (of the bracketed host, of NFKC-normalised characters in
   * the authority) are not part of this model.
   */
  function Parse(url: string): (r: Option<Parts>)
    ensures r.Some? ==> ('[' in r.value.netloc) == (']' in r.value.netloc)
    ensures r.Some? ==> forall i :: 0 <= i < |r.value.netloc| ==> !EndsNetloc(r.value.netloc[i])
    ensures r.Some? ==> '?' !in r.value.path && '#' !in r.value.path && '#' !in r.value.query
  {
    var (scheme, afterScheme) := SplitScheme(url);
    var (netloc, rest) := if StartsWith(afterScheme, "//") then SplitNetloc(afterScheme) else ("", afterScheme);
    if ('[' in netloc) != (']' in netloc) then None
    else
      var (beforeHash, fragment) := SplitOnce(rest, '#');
      var (beforeQuery, query) := SplitOnce(beforeHash, '?');
      var (path, params) :=
        if scheme in UsesParams && ';' in beforeQuery then SplitParams(beforeQuery) else (beforeQuery, "");
      NotInSlice(beforeHash, |beforeHash| - |query|, |beforeHash|, '#');
      NotInSlice(beforeHash, 0, |beforeQuery|, '#');
      NotInSlice(beforeQuery, 0, |path|, '?');
      NotInSlice(beforeQuery, 0, |path|, '#');
      Some(Parts(scheme, netloc, path, params, query, fragment))
  }

  /** `_splitnetloc(url, 2)`: the authority after `//`, up to the first `/`, `?` or `#`, and the rest. */
  function SplitNetloc(s: string): (r: (string, string))
    requires |s| >= 2
    ensures forall i :: 0 <= i < |r.0| ==> !EndsNetloc(r.0[i])
  {
    var end := FirstWhere(s, 2, EndsNetloc);
    (s[2..end], s[end..])
  }

  /** `url.split(c, 1)` when `c` occurs in `url`, and `(url, "")` otherwise. */
  function SplitOnce(s: string, c: char): (r: (string, string))
    ensures c !in r.0
    ensures |r.0| <= |s| && r.0 == s[..|r.0|]
    ensures |r.1| <= |s| && r.1 == s[|s| - |r.1|..]
  {
    var k := IndexOf(s, 0, c);
    NotBefore(s, k, c);
    if k < |s| then (s[..k], s[k + 1..]) else (s[..k], "")
  }

  /** A character that no index below `k` holds is missing from `s[..k]`. */
  lemma NotBefore(s: string, k: nat, c: char)
    requires k <= |s| && forall j :: 0 <= j < k ==> s[j] != c
    ensures c !in s[..k]
  {
  }

  /** A character missing from `s` is missing from every slice of it. */
  lemma NotInSlice(s: string, a: nat, b: nat, c: char)
    requires a <= b <= |s| && c !in s
    ensures c !in s[a..b]
  {
  }

  /** `[part for part in path.split("/") if part]`. */
  function Segments(path: string): (r: seq<string>)
    ensures forall k :: 0 <= k < |r| ==> |r[k]| > 0 && '/' !in r[k]
    decreases |path|
  {
    var k := IndexOf(path, 0, '/');
    var head := path[..k];
    (if |head| == 0 then [] else [head]) + (if k < |path| then Segments(path[k + 1..]) else [])
  }

  // ---------------------------------------------------------------------------------------
  // Query strings

  predicate IsHexDigit(c: char) { IsDigit(c) || ('a' <= c <= 'f') || ('A' <= c <= 'F') }

  function HexValue(c: char): (v: nat)
    requires IsHexDigit(c)
    ensures v < 16
  {
    if IsDigit(c) then c as int - '0' as int
    else if 'a' <= c <= 'f' then c as int - 'a' as int + 10
    else c as int - 'A' as int + 10
  }

  /** The character a percent-escaped byte decodes to; bytes of multi-byte UTF-8 become U+FFFD. */
  function ByteChar(b: nat): char
    requires b < 256
  {
    if b < 128 then b as char else '\U{FFFD}'
  }

  /** `unquote(s.replace("+", " "))`, the decoding `parse_qs` applies to names and values. */
  function Unquote(s: string): (r: string)
    ensures |r| <= |s| && (|r| == 0 <==> |s| == 0)
    ensures (forall i :: 0 <= i < |s| ==> s[i] != '%' && s[i] != '+') ==> r == s
    decreases |s|
  {
    if s == [] then []
    else if s[0] == '+' then " " + Unquote(s[1..])
    else if s[0] == '%' && |s| >= 3 && IsHexDigit(s[1]) && IsHexDigit(s[2]) then
      [ByteChar(16 * HexValue(s[1]) + HexValue(s[2]))] + Unquote(s[3..])
    else [s[0]] + Unquote(s[1..])
  }

  /**
   * The value one `name=value` field of a query contributes under `key`: fields without `=`
   * and fields with an empty value are dropped, as `parse_qs` does by default.
   */
  function FieldValue(field: string, key: string): (r: Option<string>)
    ensures r.Some? ==> |r.value| > 0
    ensures r.Some? ==> exists eq :: 0 <= eq < |field| && field[eq] == '=' && Unquote(field[..eq]) == key
  {
    var eq := IndexOf(field, 0, '=');
    if |field| == 0 || eq == |field| || eq + 1 == |field| then None
    else if Unquote(field[..eq]) == key then Some(Unquote(field[eq + 1..]))
    else None
  }

  /** `parse_qs(query).get(key)[0]`: the first value recorded under `key`, if any. */
  function FirstValue(query: string, key: string): (r: Option<string>)
    ensures r.Some? ==> |r.value| > 0
    ensures '=' !in query ==> r.None?
    decreases |query|
  {
    var amp := IndexOf(query, 0, '&');
    var here := FieldValue(query[..amp], key);
    if here.Some? then here
    else if amp < |query| then FirstValue(query[amp + 1..], key)
    else None
  }
}
