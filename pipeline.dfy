/**
 * The settings helpers and the output-directory choice of src/asx_mcp/pipeline.py:
 * `_safe_int_env`, `_safe_bool_env`, `_is_placeholder_output_dir` and `_resolve_output_dir`.
 *
 * An environment variable is passed in as its value (`None` when unset). The filesystem
 * behind `_resolve_output_dir` is a `Host`: the home directory, `expanduser`, the
 * `resolve(strict=False)` key of a path and the result of the write probe.
 */
module Pipeline {
  import opened Results
  import opened Text

  function Max(a: int, b: int): int { if a < b then b else a }

  // ---------------------------------------------------------------------------------------
  // Settings

  /** `_safe_int_env(name, default, minimum)` for the variable's value `raw`. */
  function SafeIntEnv(raw: Option<string>, default: int, minimum: int): (v: int)
    ensures v >= minimum
  {
    var text := Strip(match raw case Some(r) => r case None => IntToString(default));
    match ParseInt(text)
    case Some(n) => Max(minimum, n)
    case None => Max(minimum, default)
  }

  lemma StripIdempotent(s: string)
    ensures Strip(Strip(s)) == Strip(s)
  {
    var t := TrimStart(s, IsSpace);
    var r := Strip(s);
    if r != [] {
      assert r[0] == t[0];
    }
    StripUnpadded(r);
  }

  lemma IntToStringUnpadded(n: int)
    ensures Strip(IntToString(n)) == IntToString(n)
  {
    var s := IntToString(n);
    if n >= 0 {
      assert IsDigit(s[|s| - 1]);
    } else {
      var m := NatToString(-n);
      assert s[|s| - 1] == m[|m| - 1] && IsDigit(m[|m| - 1]);
    }
    StripUnpadded(s);
  }

  /** Unset, the variable counts as its default, raised to the minimum. */
  lemma SafeIntEnvUnset(default: int, minimum: int)
    ensures SafeIntEnv(None, default, minimum) == Max(minimum, default)
  {
    IntToStringUnpadded(default);
    ParseIntToString(default);
  }

  /** A value `int()` accepts is used, raised to the minimum; any other falls back to the default. */
  lemma SafeIntEnvSet(raw: string, default: int, minimum: int)
    ensures ParseInt(raw).Some? ==> SafeIntEnv(Some(raw), default, minimum) == Max(minimum, ParseInt(raw).value)
    ensures ParseInt(raw).None? ==> SafeIntEnv(Some(raw), default, minimum) == Max(minimum, default)
  {
    ParseIntStripped(raw);
    var text := Strip(raw);
    assert SafeIntEnv(Some(raw), default, minimum)
        == match ParseInt(text) case Some(n) => Max(minimum, n) case None => Max(minimum, default);
  }

  /** `int()` strips its argument itself. */
  lemma ParseIntStripped(s: string)
    ensures ParseInt(Strip(s)) == ParseInt(s)
  {
    StripIdempotent(s);
  }

  /** The LibreOffice timeout: `ASX_LIBREOFFICE_TIMEOUT_SECONDS`, default 120, at least 30. */
  function LibreOfficeTimeout(raw: Option<string>): (seconds: int)
    ensures seconds >= 30
  {
    SafeIntEnv(raw, 120, 30)
  }

  lemma LibreOfficeTimeoutDefault()
    ensures LibreOfficeTimeout(None) == 120
  {
    SafeIntEnvUnset(120, 30);
  }

  const TruthyWords: set<string> := {"1", "true", "yes", "on"}

  /** `_safe_bool_env(name, default)` for the variable's value `raw`. */
  function SafeBoolEnv(raw: Option<string>, default: bool): (b: bool)
    ensures raw.None? ==> b == default
    ensures raw.Some? && |Strip(raw.value)| == 0 ==> !b
    ensures raw.Some? && b ==> 1 <= |Strip(raw.value)| <= 4
  {
    match raw
    case None => default
    case Some(r) => Lower(Strip(r)) in TruthyWords
  }

  /** A set variable ignores letter case and surrounding whitespace, and the default. */
  lemma SafeBoolEnvForms(left: string, s: string, right: string, d1: bool, d2: bool)
    requires All(left, IsSpace) && All(right, IsSpace)
    ensures SafeBoolEnv(Some(left + Upper(s) + right), d1) == SafeBoolEnv(Some(s), d2)
  {
    StripPadded(left, Upper(s), right);
    StripUpper(s);
    LowerOfUpper(Strip(s));
  }

  // ---------------------------------------------------------------------------------------
  // Placeholder output directories

  /** The example directory of the tool's documentation, which callers sometimes pass on. */
  const Placeholders: set<string> := {"/path/to/local/directory", "path/to/local/directory"}

  predicate IsSlash(c: char) { c == '/' }

  predicate IsSeparator(c: char) { c == '/' || c == '\\' }

  /** `s.replace(a, b)` for single characters. */
  function ReplaceChar(s: string, a: char, b: char): (r: string)
    ensures |r| == |s|
  {
    seq(|s|, i requires 0 <= i < |s| => if s[i] == a then b else s[i])
  }

  /** `_is_placeholder_output_dir`, applied to `str(output_dir)`. */
  predicate IsPlaceholderOutputDir(dir: string): (b: bool)
    ensures b ==> |Strip(dir)| >= |"path/to/local/directory"|
  {
    Lower(TrimEnd(ReplaceChar(Strip(dir), '\\', '/'), IsSlash)) in Placeholders
  }

  /** What a spelling of a placeholder starts and ends with, and that it has no `\`. */
  lemma PlaceholderSpelling(q: string)
    requires Lower(q) in Placeholders
    ensures |q| > 0 && !IsSpace(q[0]) && !IsSpace(q[|q| - 1]) && !IsSlash(q[|q| - 1])
    ensures forall i :: 0 <= i < |q| ==> q[i] != '\\'
  {
    var p := Lower(q);
    assert |q| == |p| > 0;
    assert LowerChar(q[0]) == p[0] && p[0] in "/p";
    assert LowerChar(q[|q| - 1]) == p[|p| - 1] == 'y';
    forall i | 0 <= i < |q| ensures q[i] != '\\' {
      assert LowerChar(q[i]) == p[i] && p[i] != '\\';
    }
  }

  /** The placeholder match ignores letter case and trailing `/` and `\` separators. */
  lemma PlaceholderForms(q: string, pad: string)
    requires Lower(q) in Placeholders && All(pad, IsSeparator)
    ensures IsPlaceholderOutputDir(q + pad)
  {
    PlaceholderSpelling(q);
    PlaceholderStripped(q, pad);
    var s := q + pad;
    assert ReplaceChar(s, '\\', '/') == q + ReplaceChar(pad, '\\', '/');
    TrimEndPadded(q, ReplaceChar(pad, '\\', '/'), IsSlash);
    assert TrimEnd(q, IsSlash) == q;
  }

  // ---------------------------------------------------------------------------------------
  // Choosing the output directory

  /** What `_resolve_output_dir` asks of the filesystem. */
  datatype Host = Host(
    home: string,                    // `Path.home()`
    expandUser: string -> string,    // `Path(p).expanduser()`
    resolve: string -> string,       // `str(Path(p).resolve(strict=False))`
    writable: string -> bool)        // `_can_write_directory`

  /** `Path(dir) / name`, where `Path(".")` and `Path("")` contribute nothing. */
  function JoinPath(dir: string, name: string): string {
    if dir == "" || dir == "." then name
    else if dir[|dir| - 1] == '/' then dir + name else dir + "/" + name
  }

  /** The joined path ends with the name and, unless `dir` is `.` or empty, starts with `dir`. */
  lemma JoinPathParts(dir: string, name: string)
    ensures EndsWith(JoinPath(dir, name), name)
    ensures dir != "" && dir != "." ==> StartsWith(JoinPath(dir, name), dir)
  {
    var r := JoinPath(dir, name);
    assert r[|r| - |name|..] == name;
    if dir != "" && dir != "." { assert r[..|dir|] == dir; }
  }

  const DefaultDir := "output"
  const TmpDir := "/tmp/asx-mcp-output"

  /** `Path.home() / "Desktop" / "asx-mcp-output"`. */
  function DesktopDir(host: Host): string {
    JoinPath(JoinPath(host.home, "Desktop"), "asx-mcp-output")
  }

  /** The directories tried after the requested one. */
  function Fallbacks(host: Host): (r: seq<string>)
    ensures |r| == 3 && r[0] == DefaultDir && r[2] == TmpDir
    ensures EndsWith(r[1], "asx-mcp-output")
  {
    [DefaultDir, DesktopDir(host), TmpDir]
  }

  /** `Path(requested_raw or "output").expanduser()`. */
  function Requested(requested: string, host: Host): string {
    var raw := Strip(requested);
    host.expandUser(if |raw| == 0 then DefaultDir else raw)
  }

  /** Whether the requested directory is tried before the fallbacks. */
  predicate UsesRequest(requested: string, host: Host) {
    |Strip(requested)| > 0 && !IsPlaceholderOutputDir(Requested(requested, host))
  }

  /** The `candidates` list. */
  function Candidates(requested: string, host: Host): (r: seq<string>)
    ensures |r| >= 3 && r[|r| - 3..] == Fallbacks(host)
    ensures |r| == 4 <==> UsesRequest(requested, host)
    ensures |r| == 4 ==> r[0] == Requested(requested, host)
  {
    var head := if UsesRequest(requested, host) then [Requested(requested, host)] else [];
    var r := head + Fallbacks(host);
    assert r[|r| - 3..] == Fallbacks(host);
    r
  }

  function KeysOf(d: seq<string>, key: string -> string): set<string> {
    set x | x in d :: key(x)
  }

  /** `unique_candidates`: the candidates whose key was not seen before, in order. */
  function Dedup(s: seq<string>, key: string -> string): (r: seq<string>)
    ensures |r| <= |s|
    ensures forall x :: x in r ==> x in s
    decreases |s|
  {
    if |s| == 0 then []
    else
      var d := Dedup(s[..|s| - 1], key);
      if key(s[|s| - 1]) in KeysOf(d, key) then d else d + [s[|s| - 1]]
  }

  function UniqueCandidates(requested: string, host: Host): seq<string> {
    Dedup(Candidates(requested, host), host.resolve)
  }

  /** The first element of `s` satisfying `p`. */
  function FirstSatisfying(s: seq<string>, p: string -> bool): (r: Option<string>)
    ensures r.Some? ==> exists i: nat :: FirstAt(s, p, i) && r.value == s[i]
    ensures r.None? ==> forall x :: x in s ==> !p(x)
    decreases |s|
  {
    if |s| == 0 then None
    else if p(s[0]) then
      assert FirstAt(s, p, 0);
      Some(s[0])
    else
      var r := FirstSatisfying(s[1..], p);
      if r.Some? then
        var i: nat :| FirstAt(s[1..], p, i) && r.value == s[1..][i];
        assert FirstAt(s, p, i + 1);
        r
      else r
  }

  const NoWritableDir := "No writable output directory available. Tried: "

  /** What `_resolve_output_dir` returns or raises. */
  function ResolvedOutputDir(requested: string, host: Host): (r: Result<string>)
    ensures r.Ok? ==> r.value in UniqueCandidates(requested, host) && host.writable(r.value)
    ensures r.Ok? ==> exists i: nat ::
      FirstAt(UniqueCandidates(requested, host), host.writable, i) && r.value == UniqueCandidates(requested, host)[i]
    ensures r.Err? ==> forall d :: d in UniqueCandidates(requested, host) ==> !host.writable(d)
    ensures r.Err? ==> r.error == NoWritableDir + Join(UniqueCandidates(requested, host), ", ")
  {
    var unique := UniqueCandidates(requested, host);
    match FirstSatisfying(unique, host.writable)
    case Some(d) => Ok(d)
    case None => Err(NoWritableDir + Join(unique, ", "))
  }

  lemma KeysOfAppend(d: seq<string>, x: string, key: string -> string)
    ensures KeysOf(d + [x], key) == KeysOf(d, key) + {key(x)}
  {
    assert forall y :: y in d + [x] <==> y in d || y == x;
  }

  /** The first part of `_resolve_output_dir`: the candidate list, built by appends. */
  method BuildCandidates(requested: string, host: Host) returns (candidates: seq<string>)
    ensures candidates == Candidates(requested, host)
  {
    var requestedRaw := Strip(requested);
    var req := Requested(requested, host);
    var usable := |requestedRaw| > 0 && !IsPlaceholderOutputDir(req);
    candidates := if usable then [req] else [];
    ghost var head := candidates;
    candidates := candidates + [DefaultDir];
    candidates := candidates + [DesktopDir(host)];
    candidates := candidates + [TmpDir];
    AppendThree(head, DefaultDir, DesktopDir(host), TmpDir);
  }

  lemma AppendThree(head: seq<string>, a: string, b: string, c: string)
    ensures head + [a] + [b] + [c] == head + [a, b, c]
  {
  }

  /** The `seen`/`unique_candidates` loop: keep each candidate whose key is new. */
  method DedupByKey(candidates: seq<string>, key: string -> string) returns (unique: seq<string>)
    ensures unique == Dedup(candidates, key)
  {
    var seen: set<string> := {};
    unique := [];
    for i := 0 to |candidates|
      invariant unique == Dedup(candidates[..i], key)
      invariant seen == KeysOf(unique, key)
    {
      assert candidates[..i + 1][..i] == candidates[..i];
      var k := key(candidates[i]);
      if k in seen {
        continue;
      }
      KeysOfAppend(unique, candidates[i], key);
      seen := seen + {k};
      unique := unique + [candidates[i]];
    }
    assert candidates[..|candidates|] == candidates;
  }

  /** The loop returning the first writable candidate. */
  method FirstWritable(unique: seq<string>, writable: string -> bool) returns (r: Option<string>)
    ensures r == FirstSatisfying(unique, writable)
  {
    for i := 0 to |unique|
      invariant FirstSatisfying(unique, writable) == FirstSatisfying(unique[i..], writable)
    {
      assert unique[i..][1..] == unique[i + 1..];
      if writable(unique[i]) {
        return Some(unique[i]);
      }
    }
    return None;
  }

  /** `_resolve_output_dir`. */
  method ResolveOutputDir(requested: string, host: Host) returns (r: Result<string>)
    ensures r == ResolvedOutputDir(requested, host)
  {
    var candidates := BuildCandidates(requested, host);
    var unique := DedupByKey(candidates, host.resolve);
    var found := FirstWritable(unique, host.writable);
    if found.Some? {
      return Ok(found.value);
    }
    return Err(NoWritableDir + Join(unique, ", "));
  }

  // ---------------------------------------------------------------------------------------
  // Properties of the choice

  /** Index `i` holds the first element of `s` satisfying `p`. */
  predicate FirstAt(s: seq<string>, p: string -> bool, i: nat) {
    i < |s| && p(s[i]) && forall j :: 0 <= j < i ==> !p(s[j])
  }

  /** `FirstSatisfying` finds the first satisfying element, not just any. */
  lemma {:induction false} FirstSatisfyingIsFirst(s: seq<string>, p: string -> bool, i: nat)
    requires FirstAt(s, p, i)
    ensures FirstSatisfying(s, p) == Some(s[i])
    decreases i
  {
    if i > 0 {
      assert !p(s[0]);
      assert FirstAt(s[1..], p, i - 1);
      FirstSatisfyingIsFirst(s[1..], p, i - 1);
    }
  }

  /** The first element of `s` whose key is `k`. */
  function FirstWithKey(s: seq<string>, key: string -> string, k: string): Option<string>
    decreases |s|
  {
    if |s| == 0 then None else if key(s[0]) == k then Some(s[0]) else FirstWithKey(s[1..], key, k)
  }

  lemma {:induction false} FirstWithKeyAppend(s: seq<string>, x: string, key: string -> string, k: string)
    ensures FirstWithKey(s + [x], key, k) ==
      if FirstWithKey(s, key, k).Some? then FirstWithKey(s, key, k)
      else if key(x) == k then Some(x) else None
    decreases |s|
  {
    if |s| == 0 {
      assert s + [x] == [x];
      assert [x][1..] == [];
    } else {
      assert (s + [x])[1..] == s[1..] + [x];
      FirstWithKeyAppend(s[1..], x, key, k);
    }
  }

  lemma {:induction false} FirstWithKeyFound(s: seq<string>, key: string -> string, k: string)
    ensures FirstWithKey(s, key, k).Some? <==> k in KeysOf(s, key)
    decreases |s|
  {
    if |s| > 0 {
      FirstWithKeyFound(s[1..], key, k);
      assert forall y :: y in s <==> y == s[0] || y in s[1..];
    }
  }

  /**
   * `unique_candidates` is the candidate list cut down to the first candidate for each
   * resolved key: its keys are pairwise distinct, every candidate's key is among them, and
   * each element is the first candidate with its key.
   */
  lemma {:induction false} DedupKeepsFirstOfEachKey(s: seq<string>, key: string -> string)
    ensures forall i, j :: 0 <= i < j < |Dedup(s, key)| ==> key(Dedup(s, key)[i]) != key(Dedup(s, key)[j])
    ensures KeysOf(Dedup(s, key), key) == KeysOf(s, key)
    ensures forall x :: x in Dedup(s, key) ==> FirstWithKey(s, key, key(x)) == Some(x)
    decreases |s|
  {
    if |s| > 0 {
      var p, x := s[..|s| - 1], s[|s| - 1];
      assert s == p + [x];
      DedupKeepsFirstOfEachKey(p, key);
      var d := Dedup(p, key);
      KeysOfAppend(p, x, key);
      KeysOfAppend(d, x, key);
      forall y | y in d ensures FirstWithKey(s, key, key(y)) == Some(y) {
        FirstWithKeyAppend(p, x, key, key(y));
      }
      if key(x) !in KeysOf(d, key) {
        FirstWithKeyFound(p, key, key(x));
        FirstWithKeyAppend(p, x, key, key(x));
        forall i | 0 <= i < |d| ensures key(d[i]) != key(x) {
          assert d[i] in d;
        }
      }
    }
  }

  /** `idx` embeds `d` in `s`: strictly increasing positions of `s` holding `d`'s elements. */
  predicate EmbeddedAt(d: seq<string>, s: seq<string>, idx: seq<nat>) {
    && |idx| == |d|
    && (forall k :: 0 <= k < |idx| ==> idx[k] < |s| && d[k] == s[idx[k]])
    && (forall k, l :: 0 <= k < l < |idx| ==> idx[k] < idx[l])
  }

  /**
   * `unique_candidates` keeps the candidates in the order they were tried: it is a
   * subsequence of the candidate list.
   */
  lemma {:induction false} DedupIsSubsequence(s: seq<string>, key: string -> string)
    ensures exists idx: seq<nat> :: EmbeddedAt(Dedup(s, key), s, idx)
    decreases |s|
  {
    if |s| == 0 {
      assert EmbeddedAt(Dedup(s, key), s, []);
    } else {
      var p, x := s[..|s| - 1], s[|s| - 1];
      assert s == p + [x];
      DedupIsSubsequence(p, key);
      var d := Dedup(p, key);
      var idx: seq<nat> :| EmbeddedAt(d, p, idx);
      if key(x) in KeysOf(d, key) {
        EmbeddedInLonger(d, p, idx, x);
        assert Dedup(s, key) == d;
        assert EmbeddedAt(Dedup(s, key), s, idx);
      } else {
        EmbeddedBothLonger(d, p, idx, x);
        assert Dedup(s, key) == d + [x];
        assert EmbeddedAt(Dedup(s, key), s, idx + [|p|]);
      }
    }
  }

  lemma EmbeddedInLonger(d: seq<string>, p: seq<string>, idx: seq<nat>, x: string)
    requires EmbeddedAt(d, p, idx)
    ensures EmbeddedAt(d, p + [x], idx)
  {
    forall k | 0 <= k < |idx| ensures (p + [x])[idx[k]] == p[idx[k]] {}
  }

  lemma EmbeddedBothLonger(d: seq<string>, p: seq<string>, idx: seq<nat>, x: string)
    requires EmbeddedAt(d, p, idx)
    ensures EmbeddedAt(d + [x], p + [x], idx + [|p|])
  {
    var s, idx' := p + [x], idx + [|p|];
    forall k | 0 <= k < |idx'|
      ensures idx'[k] < |s| && (d + [x])[k] == s[idx'[k]]
    {
      if k < |idx| {
        assert s[idx[k]] == p[idx[k]];
      }
    }
  }

  lemma PlaceholderStripped(q: string, pad: string)
    requires Lower(q) in Placeholders && All(pad, IsSeparator)
    ensures Strip(q + pad) == q + pad
  {
    PlaceholderSpelling(q);
    var s := q + pad;
    assert !IsSpace(s[|s| - 1]) by {
      if |pad| > 0 {
        assert s[|s| - 1] == pad[|pad| - 1];
      } else {
        assert s[|s| - 1] == q[|q| - 1];
      }
    }
    assert s[0] == q[0];
    StripUnpadded(s);
  }

  /**
   * A request spelling the placeholder directory (in any case, with trailing separators) is
   * never tried: only the fallbacks are candidates. `Path` may keep or drop the trailing
   * separators (`pad'`), as long as it adds nothing else.
   */
  lemma PlaceholderNeverTried(q: string, pad: string, pad': string, host: Host)
    requires Lower(q) in Placeholders && All(pad, IsSeparator) && All(pad', IsSeparator)
    requires host.expandUser(q + pad) == q + pad'
    ensures Candidates(q + pad, host) == Fallbacks(host)
  {
    PlaceholderStripped(q, pad);
    PlaceholderForms(q, pad');
  }

  /** An empty or all-whitespace request is never tried either. */
  lemma BlankRequestNeverTried(requested: string, host: Host)
    requires All(requested, IsSpace)
    ensures Candidates(requested, host) == Fallbacks(host)
  {
    StripBlank(requested);
  }
}
