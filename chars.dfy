/**
 * The few Python `str` operations the datafeed relies on: `isdigit`,
 * `upper` and `lower`. Only the ASCII repertoire is modelled: digits are
 * '0'..'9' and case changes touch only 'a'..'z' and 'A'..'Z'.
 */
module Chars {

  predicate IsDigit(c: char) { '0' <= c <= '9' }

  predicate IsLowerLetter(c: char) { 'a' <= c <= 'z' }

  predicate IsUpperLetter(c: char) { 'A' <= c <= 'Z' }

  /** True when some character of `s` is a digit. */
  predicate HasDigit(s: string) { exists i :: 0 <= i < |s| && IsDigit(s[i]) }

  predicate NoDigits(s: string) { forall i :: 0 <= i < |s| ==> !IsDigit(s[i]) }

  predicate AllDigits(s: string) { forall i :: 0 <= i < |s| ==> IsDigit(s[i]) }

  /** `c.upper()` when `upper`, `c.lower()` otherwise. */
  function ChangeCaseChar(upper: bool, c: char): (r: char)
    ensures upper ==> !IsLowerLetter(r)
    ensures !upper ==> !IsUpperLetter(r)
    ensures upper && IsLowerLetter(c) ==> IsUpperLetter(r) && r as int - 'A' as int == c as int - 'a' as int
    ensures !upper && IsUpperLetter(c) ==> IsLowerLetter(r) && r as int - 'a' as int == c as int - 'A' as int
    ensures upper && IsUpperLetter(c) ==> r == c
    ensures !upper && IsLowerLetter(c) ==> r == c
    ensures IsDigit(r) <==> IsDigit(c)
    ensures !IsLowerLetter(c) && !IsUpperLetter(c) ==> r == c
  {
    if upper && IsLowerLetter(c) then (c as int - 'a' as int + 'A' as int) as char
    else if !upper && IsUpperLetter(c) then (c as int - 'A' as int + 'a' as int) as char
    else c
  }

  /** `s.upper()` when `upper`, `s.lower()` otherwise. */
  function ChangeCase(upper: bool, s: string): string
  {
    seq(|s|, i requires 0 <= i < |s| => ChangeCaseChar(upper, s[i]))
  }

  /** Changing case is done character by character, so it commutes with slicing. */
  lemma ChangeCaseSlice(upper: bool, s: string, i: nat, j: nat)
    requires i <= j <= |s|
    ensures ChangeCase(upper, s)[i..j] == ChangeCase(upper, s[i..j])
  {
  }

  /** A second `upper()` (or `lower()`) changes nothing. */
  lemma ChangeCaseIdempotent(upper: bool, s: string)
    ensures ChangeCase(upper, ChangeCase(upper, s)) == ChangeCase(upper, s)
  {
  }

  /**
   * `upper()` and `lower()` only switch a letter's case: lowering an
   * upper-cased text is lowering the text itself, and the other way round.
   */
  lemma ChangeCaseRoundTrip(s: string)
    ensures ChangeCase(false, ChangeCase(true, s)) == ChangeCase(false, s)
    ensures ChangeCase(true, ChangeCase(false, s)) == ChangeCase(true, s)
  {
  }

  /** A case change keeps digits where they were and makes none. */
  lemma ChangeCaseDigits(upper: bool, s: string)
    ensures |ChangeCase(upper, s)| == |s|
    ensures forall i :: 0 <= i < |s| ==> (IsDigit(ChangeCase(upper, s)[i]) <==> IsDigit(s[i]))
    ensures HasDigit(ChangeCase(upper, s)) <==> HasDigit(s)
    ensures NoDigits(ChangeCase(upper, s)) <==> NoDigits(s)
  {
  }

  /**
   * A string of digits is its own upper and lower case, and it is the only
   * string that a case change turns into that string of digits.
   */
  lemma ChangeCaseOnDigits(upper: bool, t: string, d: string)
    requires AllDigits(d)
    ensures ChangeCase(upper, d) == d
    ensures ChangeCase(upper, t) == d <==> t == d
  {
  }
}
