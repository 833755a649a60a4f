/** The JavaScript string primitives the modelled code calls (`trim`, the `\d`
    character class, `toLowerCase`, `includes`, `slice`), restricted to ASCII. */
module JsText {

  /** The ASCII characters `String.prototype.trim` removes: space, tab, line
      feed, vertical tab, form feed and carriage return. */
  predicate IsSpace(c: char) {
    c == ' ' || c == '\t' || c == '\n' || c == '\U{000B}' || c == '\U{000C}' || c == '\r'
  }

  /** Every character is whitespace (the empty string included). */
  predicate IsBlank(s: string) {
    forall k :: 0 <= k < |s| ==> IsSpace(s[k])
  }

  /** `s.trim()`: leading, then trailing whitespace removed. */
  function Trim(s: string): (r: string)
    ensures |r| <= |s|
    decreases |s|
  {
    if |s| > 0 && IsSpace(s[0]) then Trim(s[1..])
    else if |s| > 0 && IsSpace(s[|s| - 1]) then Trim(s[..|s| - 1])
    else s
  }

  /** How many characters `trim` drops at the front of `s`. */
  function TrimOffset(s: string): (i: nat)
    decreases |s|
  {
    if |s| > 0 && IsSpace(s[0]) then 1 + TrimOffset(s[1..])
    else if |s| > 0 && IsSpace(s[|s| - 1]) then TrimOffset(s[..|s| - 1])
    else 0
  }

  /** The result of `trim` neither starts nor ends with whitespace. */
  lemma {:induction false} TrimmedEnds(s: string)
    ensures Trim(s) == [] || (!IsSpace(Trim(s)[0]) && !IsSpace(Trim(s)[|Trim(s)| - 1]))
    decreases |s|
  {
    if |s| > 0 && IsSpace(s[0]) {
      TrimmedEnds(s[1..]);
    } else if |s| > 0 && IsSpace(s[|s| - 1]) {
      TrimmedEnds(s[..|s| - 1]);
    }
  }

  /** The result of `trim` is the slice of `s` that starts after the dropped
      prefix: its `k`-th character is the one at `TrimOffset(s) + k`. */
  lemma {:induction false} TrimIsSlice(s: string)
    ensures TrimOffset(s) + |Trim(s)| <= |s|
    ensures forall k :: 0 <= k < |Trim(s)| ==> Trim(s)[k] == s[TrimOffset(s) + k]
    decreases |s|
  {
    if |s| > 0 && IsSpace(s[0]) {
      var t := s[1..];
      TrimIsSlice(t);
      assert TrimOffset(s) == 1 + TrimOffset(t) && Trim(s) == Trim(t);
      forall k | 0 <= k < |Trim(s)|
        ensures Trim(s)[k] == s[TrimOffset(s) + k]
      {
        assert Trim(t)[k] == t[TrimOffset(t) + k];
      }
    } else if |s| > 0 && IsSpace(s[|s| - 1]) {
      var t := s[..|s| - 1];
      TrimIsSlice(t);
      assert TrimOffset(s) == TrimOffset(t) && Trim(s) == Trim(t);
      forall k | 0 <= k < |Trim(s)|
        ensures Trim(s)[k] == s[TrimOffset(s) + k]
      {
        assert Trim(t)[k] == t[TrimOffset(t) + k];
      }
    }
  }

  /** `trim` removes only whitespace: every character before and after the
      slice it keeps is whitespace. */
  lemma {:induction false} TrimDropsOnlySpace(s: string)
    ensures TrimOffset(s) + |Trim(s)| <= |s|
    ensures forall k :: 0 <= k < TrimOffset(s) ==> IsSpace(s[k])
    ensures forall k :: TrimOffset(s) + |Trim(s)| <= k < |s| ==> IsSpace(s[k])
    decreases |s|
  {
    TrimIsSlice(s);
    if |s| > 0 && IsSpace(s[0]) {
      DropsOnlySpaceFront(s);
    } else if |s| > 0 && IsSpace(s[|s| - 1]) {
      DropsOnlySpaceBack(s);
    }
  }

  /** The step of `TrimDropsOnlySpace` where a leading space is dropped. */
  lemma {:induction false} DropsOnlySpaceFront(s: string)
    requires |s| > 0 && IsSpace(s[0])
    ensures TrimOffset(s) + |Trim(s)| <= |s|
    ensures forall k :: 0 <= k < TrimOffset(s) ==> IsSpace(s[k])
    ensures forall k :: TrimOffset(s) + |Trim(s)| <= k < |s| ==> IsSpace(s[k])
    decreases |s|, 0
  {
    TrimIsSlice(s);
    var t := s[1..];
    TrimDropsOnlySpace(t);
    forall k | 1 <= k < |s|
      ensures s[k] == t[k - 1]
    {
    }
  }

  /** The step of `TrimDropsOnlySpace` where a trailing space is dropped. */
  lemma {:induction false} DropsOnlySpaceBack(s: string)
    requires |s| > 0 && !IsSpace(s[0]) && IsSpace(s[|s| - 1])
    ensures TrimOffset(s) + |Trim(s)| <= |s|
    ensures forall k :: 0 <= k < TrimOffset(s) ==> IsSpace(s[k])
    ensures forall k :: TrimOffset(s) + |Trim(s)| <= k < |s| ==> IsSpace(s[k])
    decreases |s|, 0
  {
    TrimIsSlice(s);
    var t := s[..|s| - 1];
    TrimDropsOnlySpace(t);
    forall k | 0 <= k < |s| - 1
      ensures s[k] == t[k]
    {
    }
  }

  /** `trim` gives the empty string exactly for a blank string. */
  lemma {:induction false} TrimEmptyIffBlank(s: string)
    ensures Trim(s) == [] <==> IsBlank(s)
    decreases |s|
  {
    if |s| > 0 && IsSpace(s[0]) {
      TrimEmptyIffBlank(s[1..]);
      assert IsBlank(s) <==> IsBlank(s[1..]);
    } else if |s| > 0 && IsSpace(s[|s| - 1]) {
      TrimEmptyIffBlank(s[..|s| - 1]);
      assert IsBlank(s) <==> IsBlank(s[..|s| - 1]);
    }
  }

  /** A string that neither starts nor ends with whitespace, in particular a
      result of `trim`, is left as it is by `trim`. */
  lemma TrimKeepsTrimmed(s: string)
    requires s == [] || (!IsSpace(s[0]) && !IsSpace(s[|s| - 1]))
    ensures Trim(s) == s
  {
  }

  /** Trimming twice is trimming once. */
  lemma TrimIdempotent(s: string)
    ensures Trim(Trim(s)) == Trim(s)
  {
    TrimmedEnds(s);
    TrimKeepsTrimmed(Trim(s));
  }

  /** One of the characters of the regular-expression class `\d`. */
  predicate IsDigit(c: char) {
    '0' <= c <= '9'
  }

  /** The test `/^\d{n}$/.test(s)`: exactly `n` characters, all digits. */
  predicate MatchesDigits(s: string, n: nat) {
    |s| == n && forall k :: 0 <= k < |s| ==> IsDigit(s[k])
  }

  /** `toLowerCase` of one ASCII character. */
  function LowerChar(c: char): char {
    if 'A' <= c <= 'Z' then (c as int + 32) as char else c
  }

  /** `toUpperCase` of one ASCII character. */
  function UpperChar(c: char): char {
    if 'a' <= c <= 'z' then (c as int - 32) as char else c
  }

  function ToLower(s: string): string {
    seq(|s|, k requires 0 <= k < |s| => LowerChar(s[k]))
  }

  function ToUpper(s: string): string {
    seq(|s|, k requires 0 <= k < |s| => UpperChar(s[k]))
  }

  /** `hay.includes(needle)`: `needle` occurs in `hay` at some position. */
  predicate Includes(hay: string, needle: string) {
    exists i :: 0 <= i <= |hay| - |needle| && needle <= hay[i..]
  }

  /** `s.slice(0, n)`. */
  function Slice(s: string, n: nat): string {
    if |s| <= n then s else s[..n]
  }

  /** The decimal rendering of a natural number, as `String(n)` gives it. */
  function Decimal(n: nat): string
    decreases n
  {
    if n < 10 then ["0123456789"[n]] else Decimal(n / 10) + ["0123456789"[n % 10]]
  }
}
