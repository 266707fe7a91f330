/**
 * Properties of the request key and the de-duplication windows: which requests share a key
 * (exactly those with the same canonical ticker, canonical recipient and `send_email`
 * flag), and what the windows are when unset, numeric or malformed.
 */
module KeyProps {
  import opened Results
  import opened Text
  import Report
  import opened RequestKey

  // ---------------------------------------------------------------------------------------
  // The recipient

  /** Letter case and surrounding whitespace do not change the canonical recipient. */
  lemma RecipientForms(left: string, s: string, right: string)
    requires All(left, IsSpace) && All(right, IsSpace)
    ensures CanonicalRecipient(left + Upper(s) + right) == CanonicalRecipient(s)
  {
    StripPadded(left, Upper(s), right);
    StripUpper(s);
    LowerOfUpper(Strip(s));
  }

  /** A blank recipient is the default address. */
  lemma BlankRecipient(r: string)
    requires All(r, IsSpace)
    ensures CanonicalRecipient(r) == DefaultRecipient
  {
    StripBlank(r);
    assert |Lower(Strip(r))| == 0;
  }

  // ---------------------------------------------------------------------------------------
  // The key

  /** The key is the canonical ticker, recipient and flag, separated by `|`. */
  lemma KeyParts(asxCode: string, recipient: string, sendEmail: bool)
    ensures Key(asxCode, recipient, sendEmail)
         == CanonicalTicker(asxCode) + "|" + (CanonicalRecipient(recipient) + "|" + Report.BoolText(sendEmail))
  {
    JoinThree(CanonicalTicker(asxCode), CanonicalRecipient(recipient), Report.BoolText(sendEmail));
  }

  /** A separator-free head is determined by the text before the first `|`. */
  lemma SplitAtSeparator(t1: string, rest1: string, t2: string, rest2: string)
    requires '|' !in t1 && '|' !in t2
    requires t1 + "|" + rest1 == t2 + "|" + rest2
    ensures t1 == t2 && rest1 == rest2
  {
    var s := t1 + "|" + rest1;
    assert s[|t1|] == '|' && s[|t2|] == '|';
    assert |t1| <= |t2| by {
      assert forall i :: 0 <= i < |t2| ==> s[i] == t2[i];
    }
    assert |t2| <= |t1| by {
      assert forall i :: 0 <= i < |t1| ==> s[i] == t1[i];
    }
    assert t1 == s[..|t1|] == t2;
    assert rest1 == s[|t1| + 1..] == rest2;
  }

  /** The fifth character from the end of `r|true` is `|`, that of `r|false` is `f`. */
  lemma FlagMark(r: string, sendEmail: bool)
    ensures var s := r + "|" + Report.BoolText(sendEmail);
            |s| >= 5 && s[|s| - 5] == if sendEmail then '|' else 'f'
  {
  }

  /** The recipient and the flag are determined by `recipient|flag`. */
  lemma SplitFlag(r1: string, f1: bool, r2: string, f2: bool)
    requires r1 + "|" + Report.BoolText(f1) == r2 + "|" + Report.BoolText(f2)
    ensures r1 == r2 && f1 == f2
  {
    FlagMark(r1, f1);
    FlagMark(r2, f2);
    var s := r1 + "|" + Report.BoolText(f1);
    assert |r1| == |r2|;
    assert r1 == s[..|r1|] == r2;
  }

  /** Two requests share a key exactly when their canonical ticker, recipient and flag agree. */
  lemma SameKeyIff(a1: string, r1: string, f1: bool, a2: string, r2: string, f2: bool)
    ensures Key(a1, r1, f1) == Key(a2, r2, f2)
        <==> CanonicalTicker(a1) == CanonicalTicker(a2) && CanonicalRecipient(r1) == CanonicalRecipient(r2) && f1 == f2
  {
    KeyParts(a1, r1, f1);
    KeyParts(a2, r2, f2);
    if Key(a1, r1, f1) == Key(a2, r2, f2) {
      CanonicalTickerShape(a1);
      CanonicalTickerShape(a2);
      SplitAtSeparator(CanonicalTicker(a1), CanonicalRecipient(r1) + "|" + Report.BoolText(f1),
                       CanonicalTicker(a2), CanonicalRecipient(r2) + "|" + Report.BoolText(f2));
      SplitFlag(CanonicalRecipient(r1), f1, CanonicalRecipient(r2), f2);
    }
  }

  /** The same request with and without e-mail are never de-duplicated against each other. */
  lemma FlagSeparatesKeys(asxCode: string, recipient: string)
    ensures Key(asxCode, recipient, true) != Key(asxCode, recipient, false)
  {
    SameKeyIff(asxCode, recipient, true, asxCode, recipient, false);
  }

  /** A recipient written upper-cased and padded with whitespace shares the request's key. */
  lemma RecipientFormSharesKey(asxCode: string, left: string, s: string, right: string, sendEmail: bool)
    requires All(left, IsSpace) && All(right, IsSpace)
    ensures Key(asxCode, left + Upper(s) + right, sendEmail) == Key(asxCode, s, sendEmail)
  {
    RecipientForms(left, s, right);
  }

  // ---------------------------------------------------------------------------------------
  // The windows

  /** An unset variable gives the default window. */
  lemma WindowUnset(default: nat)
    ensures WindowSeconds(None, default) == default
  {
    ParseIntToString(default);
  }

  /** The success window is 90 seconds and the error window 25 when their variables are unset. */
  lemma WindowDefaults()
    ensures DedupeWindow(None) == 90 && ErrorDedupeWindow(None) == 25
  {
    WindowUnset(90);
    WindowUnset(25);
  }

  /** A variable holding an integer gives that integer, negative ones raised to 0. */
  lemma WindowOfInteger(n: int, default: nat)
    ensures WindowSeconds(Some(IntToString(n)), default) == if n < 0 then 0 else n
  {
    ParseIntToString(n);
  }

  /** A variable `int()` rejects gives the default window. */
  lemma WindowOfMalformed(raw: string, default: nat)
    requires ParseInt(raw).None?
    ensures WindowSeconds(Some(raw), default) == default
  {
  }
}
