/** The TOTP entry form: the code typed so far is kept as digits only, at
    most six of them, and is handed on (and cleared) only when it has exactly
    six. */
module TotpTestForm {
  import opened Wrappers
  import opened Seqs
  import opened JsText

  const CodeLength: nat := 6

  predicate OnlyDigits(s: string) {
    forall k :: 0 <= k < |s| ==> IsDigit(s[k])
  }

  /** `value.replace(/\D/g, "")`: the digits of `value`, in order. */
  function DigitsOf(value: string): string {
    Filter(value, IsDigit)
  }

  /** The cleaned code `handleTotpChange` stores: the digits of `value`, cut
      to the first six. */
  function CleanTotp(value: string): (r: string)
    ensures OnlyDigits(r) && |r| <= CodeLength
    ensures IsSubsequence(r, value)
  {
    var digits := DigitsOf(value);
    FilterSound(value, IsDigit);
    assert forall k :: 0 <= k < |digits| ==> digits[k] in digits;
    var r := if |digits| <= CodeLength then digits else digits[..CodeLength];
    FilterIsSubsequence(value, IsDigit);
    PrefixIsSubsequence(r, digits, value);
    r
  }

  /** A prefix of a subsequence is a subsequence. */
  lemma {:induction false} PrefixIsSubsequence(p: string, xs: string, ys: string)
    requires p <= xs && IsSubsequence(xs, ys)
    ensures IsSubsequence(p, ys)
    decreases |ys|
  {
    if p != [] && ys != [] {
      if xs[0] == ys[0] && IsSubsequence(xs[1..], ys[1..]) {
        PrefixIsSubsequence(p[1..], xs[1..], ys[1..]);
      } else {
        PrefixIsSubsequence(p, xs, ys[1..]);
      }
    }
  }

  /** The digit subsequence keeps every digit of `value` as often as it occurs,
      and nothing else. */
  lemma DigitsOfCounts(value: string, c: char)
    ensures multiset(DigitsOf(value))[c] == if IsDigit(c) then multiset(value)[c] else 0
  {
    FilterCount(value, IsDigit, c);
  }

  /** The cleaned code is the first min(6, n) characters of the digit
      subsequence of `value`, where n is its length. */
  lemma CleanIsDigitPrefix(value: string)
    ensures var n := |DigitsOf(value)|;
      |CleanTotp(value)| == (if n < CodeLength then n else CodeLength) && CleanTotp(value) <= DigitsOf(value)
  {
  }

  /** Cleaning an already clean code changes nothing. */
  lemma CleanIdempotent(value: string)
    ensures CleanTotp(CleanTotp(value)) == CleanTotp(value)
  {
    var r := CleanTotp(value);
    assert forall c :: c in r ==> IsDigit(c);
    FilterKeepsAll(r, IsDigit);
  }

  /** Typing one more character: a digit is appended while fewer than six
      are held, anything else leaves the code as it was. */
  lemma TypeCharacter(value: string, c: char)
    ensures CleanTotp(value + [c]) ==
      if IsDigit(c) && |CleanTotp(value)| < CodeLength then CleanTotp(value) + [c] else CleanTotp(value)
  {
    FilterAppend(value, [c], IsDigit);
    assert Filter([c], IsDigit) == (if IsDigit(c) then [c] else []);
    var d := DigitsOf(value);
    if IsDigit(c) && |d| >= CodeLength {
      assert (d + [c])[..CodeLength] == d[..CodeLength];
    }
  }

  /** A code the form hands on passes the proxy's TOTP check `/^\d{6}$/`
      after trimming. */
  lemma SubmittedCodePassesTotpTest(code: string)
    requires OnlyDigits(code) && |code| == CodeLength
    ensures MatchesDigits(Trim(code), 6)
  {
    TrimKeepsTrimmed(code);
  }

  /** The form's state: the code typed so far. */
  class TotpForm {
    var totpCode: string

    /** Every code the form holds is clean. */
    ghost predicate Valid()
      reads this
    {
      OnlyDigits(totpCode) && |totpCode| <= CodeLength
    }

    constructor ()
      ensures Valid() && totpCode == ""
    {
      totpCode := "";
    }

    /** `handleTotpChange`: store the cleaned input. */
    method Change(value: string)
      modifies this
      ensures Valid() && totpCode == CleanTotp(value)
    {
      totpCode := CleanTotp(value);
    }

    /** `handleSubmit`: with exactly six digits, hand the code to `onSubmit`
        (returned here) and clear it; otherwise do nothing. */
    method Submit() returns (submitted: Option<string>)
      requires Valid()
      modifies this
      ensures Valid()
      ensures |old(totpCode)| == CodeLength ==> submitted == Some(old(totpCode)) && totpCode == ""
      ensures |old(totpCode)| != CodeLength ==> submitted == None && totpCode == old(totpCode)
      ensures submitted.Some? ==> OnlyDigits(submitted.value) && |submitted.value| == CodeLength
      ensures submitted.Some? <==> old(SubmitEnabled(false, false))
    {
      if |totpCode| == CodeLength {
        submitted := Some(totpCode);
        totpCode := "";
      } else {
        submitted := None;
      }
    }

    /** The submit button is enabled (its `disabled` attribute is false).
        On a clean form that is exactly when the form is neither disabled nor
        loading and the code is a full six-digit code, the one the proxy's
        TOTP check accepts; `Submit` hands the code on exactly when the button
        of a form that is neither disabled nor loading is enabled. */
    predicate SubmitEnabled(disabled: bool, isLoading: bool)
      reads this
      ensures SubmitEnabled(disabled, isLoading) ==> !disabled && !isLoading
      ensures Valid() ==>
        (SubmitEnabled(disabled, isLoading) <==> !disabled && !isLoading && MatchesDigits(totpCode, CodeLength))
    {
      !(disabled || isLoading || |totpCode| != CodeLength)
    }
  }
}
