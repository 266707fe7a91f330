/**
 * String helpers with Python's meaning: character classes as the `re` patterns of the
 * pipeline use them, `str.strip`, `str.upper`/`str.lower` (ASCII letters only), `str.isdigit`,
 * `str.join`, `str.replace(pat, "")`, `int(str)` and `str(int)`.
 */
module Text {
  import opened Results

  // ---------------------------------------------------------------------------------------
  // Character classes

  predicate IsUpper(c: char) { 'A' <= c <= 'Z' }
  predicate IsLower(c: char) { 'a' <= c <= 'z' }
  predicate IsDigit(c: char) { '0' <= c <= '9' }

  /** The regular-expression class `[A-Z0-9]`. */
  predicate IsUpperAlnum(c: char) { IsUpper(c) || IsDigit(c) }

  /** The regular-expression class `[A-Z0-9.]` kept by the URL-segment clean-up. */
  predicate IsCodeChar(c: char) { IsUpperAlnum(c) || c == '.' }

  /** `\w` (ASCII letters, digits and underscore). */
  predicate IsWordChar(c: char) { IsUpper(c) || IsLower(c) || IsDigit(c) || c == '_' }

  /** Python's `str.isspace()`; also what `\s` matches in a `str` pattern. */
  predicate IsSpace(c: char) {
    || ('\t' <= c <= '\r')
    || ('\U{1C}' <= c <= ' ')
    || c == '\U{85}' || c == '\U{A0}' || c == '\U{1680}'
    || ('\U{2000}' <= c <= '\U{200A}')
    || c == '\U{2028}' || c == '\U{2029}' || c == '\U{202F}' || c == '\U{205F}' || c == '\U{3000}'
  }

  predicate All(s: string, p: char -> bool) {
    forall i :: 0 <= i < |s| ==> p(s[i])
  }

  /** Python's `str.isdigit()` on ASCII text: non-empty and only digits. */
  predicate IsDigits(s: string) {
    |s| > 0 && All(s, IsDigit)
  }

  // ---------------------------------------------------------------------------------------
  // Case mapping

  function UpperChar(c: char): char {
    if IsLower(c) then (c as int - 32) as char else c
  }

  function LowerChar(c: char): char {
    if IsUpper(c) then (c as int + 32) as char else c
  }

  function Upper(s: string): string {
    seq(|s|, i requires 0 <= i < |s| => UpperChar(s[i]))
  }

  function Lower(s: string): string {
    seq(|s|, i requires 0 <= i < |s| => LowerChar(s[i]))
  }

  /** Lower-casing forgets any earlier upper-casing. */
  lemma LowerOfUpper(s: string)
    ensures Lower(Upper(s)) == Lower(s)
  {
    assert forall i | 0 <= i < |s| :: LowerChar(UpperChar(s[i])) == LowerChar(s[i]);
  }

  lemma UpperOfUpperAlnum(s: string)
    requires All(s, IsCodeChar)
    ensures Upper(s) == s
  {
  }

  // ---------------------------------------------------------------------------------------
  // Trimming and filtering

  function TrimStart(s: string, p: char -> bool): (r: string)
    ensures |r| <= |s| && r == s[|s| - |r|..]
    ensures r != [] ==> !p(r[0])
    decreases |s|
  {
    if |s| == 0 || !p(s[0]) then s
    else
      var r := TrimStart(s[1..], p);
      assert s[1..][|s| - 1 - |r|..] == s[|s| - |r|..];
      r
  }

  function TrimEnd(s: string, p: char -> bool): (r: string)
    ensures |r| <= |s| && r == s[..|r|]
    ensures r != [] ==> !p(r[|r| - 1])
    ensures forall k :: |r| <= k < |s| ==> p(s[k])
    decreases |s|
  {
    if |s| > 0 && p(s[|s| - 1]) then TrimEnd(s[..|s| - 1], p) else s
  }

  /** Python's `str.strip()`. */
  function Strip(s: string): (r: string)
    ensures |r| <= |s|
  {
    TrimEnd(TrimStart(s, IsSpace), IsSpace)
  }

  /** Python's `str.strip(chars)` with the characters given by `p`. */
  function StripChars(s: string, p: char -> bool): string {
    TrimEnd(TrimStart(s, p), p)
  }

  lemma StripUnpadded(s: string)
    requires s == [] || (!IsSpace(s[0]) && !IsSpace(s[|s| - 1]))
    ensures Strip(s) == s
  {
  }

  lemma {:induction false} TrimStartPadded(pad: string, s: string, p: char -> bool)
    requires All(pad, p)
    ensures TrimStart(pad + s, p) == TrimStart(s, p)
    decreases |pad|
  {
    if pad != [] {
      var ps := pad + s;
      assert ps[0] == pad[0] && p(pad[0]);
      assert ps[1..] == pad[1..] + s;
      assert TrimStart(ps, p) == TrimStart(ps[1..], p);
      TrimStartPadded(pad[1..], s, p);
    } else {
      assert pad + s == s;
    }
  }

  lemma {:induction false} TrimEndPadded(s: string, pad: string, p: char -> bool)
    requires All(pad, p)
    ensures TrimEnd(s + pad, p) == TrimEnd(s, p)
    decreases |pad|
  {
    if pad != [] {
      var sp := s + pad;
      assert sp[|sp| - 1] == pad[|pad| - 1] && p(pad[|pad| - 1]);
      assert sp[..|sp| - 1] == s + pad[..|pad| - 1];
      assert TrimEnd(sp, p) == TrimEnd(sp[..|sp| - 1], p);
      TrimEndPadded(s, pad[..|pad| - 1], p);
    } else {
      assert s + pad == s;
    }
  }

  lemma {:induction false} TrimStartAppend(s: string, t: string, p: char -> bool)
    requires TrimStart(s, p) != []
    ensures TrimStart(s + t, p) == TrimStart(s, p) + t
    decreases |s|
  {
    if p(s[0]) {
      assert (s + t)[1..] == s[1..] + t;
      TrimStartAppend(s[1..], t, p);
    }
  }

  lemma {:induction false} TrimStartAllOf(s: string, t: string, p: char -> bool)
    requires TrimStart(s, p) == []
    ensures TrimStart(s + t, p) == TrimStart(t, p)
    decreases |s|
  {
    if s != [] {
      var st := s + t;
      assert p(s[0]) && st[0] == s[0];
      assert st[1..] == s[1..] + t;
      assert TrimStart(st, p) == TrimStart(st[1..], p);
      assert TrimStart(s, p) == TrimStart(s[1..], p);
      TrimStartAllOf(s[1..], t, p);
    } else {
      assert s + t == t;
    }
  }

  /** An all-whitespace string strips to the empty string. */
  lemma StripBlank(s: string)
    requires All(s, IsSpace)
    ensures Strip(s) == []
  {
    TrimStartPadded(s, [], IsSpace);
    assert s + [] == s;
  }

  /** Surrounding whitespace never changes what `strip()` returns. */
  lemma StripPadded(left: string, s: string, right: string)
    requires All(left, IsSpace) && All(right, IsSpace)
    ensures Strip(left + s + right) == Strip(s)
  {
    assert left + s + right == left + (s + right);
    TrimStartPadded(left, s + right, IsSpace);
    if TrimStart(s, IsSpace) == [] {
      TrimStartAllOf(s, right, IsSpace);
      TrimEndPadded([], TrimStart(right, IsSpace), IsSpace);
      assert TrimStart(right, IsSpace) == [];
    } else {
      TrimStartAppend(s, right, IsSpace);
      TrimEndPadded(TrimStart(s, IsSpace), right, IsSpace);
    }
  }

  lemma {:induction false} TrimStartUpper(s: string)
    ensures TrimStart(Upper(s), IsSpace) == Upper(TrimStart(s, IsSpace))
    decreases |s|
  {
    if |s| > 0 {
      var u := Upper(s);
      assert u[0] == UpperChar(s[0]);
      assert IsSpace(u[0]) == IsSpace(s[0]);
      if IsSpace(s[0]) {
        assert u[1..] == Upper(s[1..]);
        TrimStartUpper(s[1..]);
      }
    }
  }

  lemma {:induction false} TrimEndUpper(s: string)
    ensures TrimEnd(Upper(s), IsSpace) == Upper(TrimEnd(s, IsSpace))
    decreases |s|
  {
    if |s| > 0 && IsSpace(s[|s| - 1]) {
      assert Upper(s)[..|s| - 1] == Upper(s[..|s| - 1]);
      TrimEndUpper(s[..|s| - 1]);
    }
  }

  /** Upper-casing and stripping commute: no letter is whitespace. */
  lemma StripUpper(s: string)
    ensures Strip(Upper(s)) == Upper(Strip(s))
  {
    TrimStartUpper(s);
    TrimEndUpper(TrimStart(s, IsSpace));
  }

  /** `re.sub(r"[^...]", "", s)`: the characters of `s` that satisfy `p`, in order. */
  function Filter(s: string, p: char -> bool): (r: string)
    ensures |r| <= |s|
    ensures All(r, p)
    ensures All(s, p) ==> r == s
    decreases |s|
  {
    if s == [] then [] else (if p(s[0]) then [s[0]] else []) + Filter(s[1..], p)
  }

  /** End of the longest run of characters satisfying `p` that starts at `i`. */
  function RunEnd(s: string, i: nat, p: char -> bool): (e: nat)
    requires i <= |s|
    ensures i <= e <= |s|
    ensures forall k :: i <= k < e ==> p(s[k])
    ensures e < |s| ==> !p(s[e])
    decreases |s| - i
  {
    if i < |s| && p(s[i]) then RunEnd(s, i + 1, p) else i
  }

  /** `RunEnd` is determined by the run it describes. */
  lemma {:induction false} RunEndIs(s: string, i: nat, p: char -> bool, e: nat)
    requires i <= e <= |s|
    requires forall k :: i <= k < e ==> p(s[k])
    requires e == |s| || !p(s[e])
    ensures RunEnd(s, i, p) == e
    decreases e - i
  {
    if i < e {
      RunEndIs(s, i + 1, p, e);
    }
  }

  // ---------------------------------------------------------------------------------------
  // Affixes, replacement and joining

  predicate StartsWith(s: string, prefix: string) {
    |prefix| <= |s| && s[..|prefix|] == prefix
  }

  predicate EndsWith(s: string, suffix: string) {
    |suffix| <= |s| && s[|s| - |suffix|..] == suffix
  }

  /** Python's `s.replace(pat, "")`: occurrences are removed left to right, without overlap. */
  function RemoveAll(s: string, pat: string): string
    requires |pat| > 0
    decreases |s|
  {
    if |s| < |pat| then s
    else if s[..|pat|] == pat then RemoveAll(s[|pat|..], pat)
    else [s[0]] + RemoveAll(s[1..], pat)
  }

  lemma {:induction false} RemoveAllAbsent(s: string, pat: string)
    requires |pat| > 0 && pat[0] !in s
    ensures RemoveAll(s, pat) == s
    decreases |s|
  {
    if |s| >= |pat| {
      assert s[..|pat|][0] == s[0];
      RemoveAllAbsent(s[1..], pat);
    }
  }

  /** Python's `sep.join(parts)`. */
  function Join(parts: seq<string>, sep: string): string
    decreases |parts|
  {
    if |parts| == 0 then ""
    else if |parts| == 1 then parts[0]
    else parts[0] + sep + Join(parts[1..], sep)
  }

  // ---------------------------------------------------------------------------------------
  // Integers: `str(n)` and `int(s)`

  function DigitChar(d: nat): (c: char)
    requires d < 10
    ensures IsDigit(c)
  {
    ('0' as int + d) as char
  }

  function DigitValue(c: char): nat
    requires IsDigit(c)
  {
    c as int - '0' as int
  }

  /** Python's `str(n)` for `n >= 0`. */
  function NatToString(n: nat): (s: string)
    ensures |s| > 0 && All(s, IsDigit)
    decreases n
  {
    if n < 10 then [DigitChar(n)] else NatToString(n / 10) + [DigitChar(n % 10)]
  }

  /** Python's `str(n)`. */
  function IntToString(n: int): string {
    if n < 0 then "-" + NatToString(-n) else NatToString(n)
  }

  /** The value of a decimal digit string, most significant digit first. */
  function DigitsValue(s: string): nat
    requires All(s, IsDigit)
    decreases |s|
  {
    if s == [] then 0 else 10 * DigitsValue(s[..|s| - 1]) + DigitValue(s[|s| - 1])
  }

  /** Digits with single underscores between them, as `int()` accepts: `[0-9](_?[0-9])*`. */
  predicate IsDigitGroups(s: string) {
    |s| > 0 && IsDigit(s[0]) && IsDigit(s[|s| - 1]) && forall i :: 0 <= i < |s| ==> IsGroupChar(s, i)
  }

  /** A digit, or an underscore between two digits. */
  predicate IsGroupChar(s: string, i: nat)
    requires i < |s|
  {
    IsDigit(s[i]) || (s[i] == '_' && 0 < i < |s| - 1 && IsDigit(s[i - 1]) && IsDigit(s[i + 1]))
  }

  function GroupsValue(s: string): nat
    requires IsDigitGroups(s)
  {
    DigitsValue(Filter(s, IsDigit))
  }

  /** Python's `int(s)` for a `str`: `None` where it raises `ValueError`. */
  function ParseInt(s: string): (r: Option<int>)
    ensures All(s, IsSpace) ==> r.None?
    ensures IsDigits(s) ==> r == Some(DigitsValue(s))
  {
    var t := Strip(s);
    ParseIntInput(s);
    if |t| > 0 && (t[0] == '+' || t[0] == '-') then
      if IsDigitGroups(t[1..]) then
        var v: int := GroupsValue(t[1..]);
        Some(if t[0] == '-' then -v else v)
      else None
    else if IsDigitGroups(t) then Some(GroupsValue(t))
    else None
  }

  lemma {:induction false} DigitsValueOfNat(n: nat)
    ensures DigitsValue(NatToString(n)) == n
    decreases n
  {
    var s := NatToString(n);
    if n >= 10 {
      assert s[..|s| - 1] == NatToString(n / 10);
      DigitsValueOfNat(n / 10);
    }
  }

  lemma DigitGroupsOfDigits(d: string)
    requires IsDigits(d)
    ensures IsDigitGroups(d) && GroupsValue(d) == DigitsValue(d)
  {
    assert Filter(d, IsDigit) == d;
  }

  /**
   * A blank string strips to nothing; a digit string strips to itself and is read by the
   * unsigned branch of `ParseInt`, with its decimal value.
   */
  lemma ParseIntInput(s: string)
    ensures All(s, IsSpace) ==> Strip(s) == []
    ensures IsDigits(s) ==> Strip(s) == s && !(s[0] == '+' || s[0] == '-') && IsDigitGroups(s)
                            && GroupsValue(s) == DigitsValue(s)
  {
    if All(s, IsSpace) {
      StripBlank(s);
    }
    if IsDigits(s) {
      DigitIsPlain(s[0]);
      DigitIsPlain(s[|s| - 1]);
      StripUnpadded(s);
      DigitGroupsOfDigits(s);
    }
  }

  /** A digit is neither whitespace nor a sign. */
  lemma DigitIsPlain(c: char)
    requires IsDigit(c)
    ensures !IsSpace(c) && c != '+' && c != '-'
  {
  }

  /** `int()` of `-` and digit groups with nothing to strip. */
  lemma ParseIntMinus(g: string)
    requires Strip("-" + g) == "-" + g && IsDigitGroups(g)
    ensures ParseInt("-" + g) == Some(-(GroupsValue(g) as int))
  {
    var t := "-" + g;
    assert t[0] == '-' && t[1..] == g;
  }

  lemma ParseIntOfNegated(d: string)
    requires IsDigits(d)
    ensures ParseInt("-" + d) == Some(-(DigitsValue(d) as int))
  {
    DigitGroupsOfDigits(d);
    var s := "-" + d;
    assert s[1..] == d;
    assert s[0] == '-' && !IsSpace('-');
    assert s[|s| - 1] == d[|d| - 1];
    DigitIsPlain(d[|d| - 1]);
    StripUnpadded(s);
    ParseIntMinus(d);
  }

  /** `int(str(n)) == n`. */
  lemma ParseIntToString(n: int)
    ensures ParseInt(IntToString(n)) == Some(n)
  {
    var m: nat := if n < 0 then -n else n;
    DigitsValueOfNat(m);
    if n < 0 { ParseIntOfNegated(NatToString(m)); }
  }
}
