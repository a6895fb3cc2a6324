/** Normalisation of the bill's currency code before it is used for formatting. */
module Currency {
  import opened Wrappers

  const DefaultCode: string := "EUR"

  predicate IsLowerAscii(c: char)
  {
    'a' <= c <= 'z'
  }

  /** toUpperCase on one character, for the ASCII range. */
  function UpperChar(c: char): (u: char)
    ensures !IsLowerAscii(u)
    ensures !IsLowerAscii(c) ==> u == c
  {
    if IsLowerAscii(c) then (c as int - 32) as char else c
  }

  function ToUpper(s: string): (r: string)
    ensures |r| == |s|
    ensures forall i :: 0 <= i < |s| ==> r[i] == UpperChar(s[i])
  {
    seq(|s|, i requires 0 <= i < |s| => UpperChar(s[i]))
  }

  predicate NoLowerAscii(s: string)
  {
    forall i :: 0 <= i < |s| ==> !IsLowerAscii(s[i])
  }

  /**
   * getValidCurrencyCode: a missing or empty code, a bare currency symbol, or
   * a code that is not three characters long becomes "EUR"; a three-character
   * code is upper-cased. Nothing checks the code against ISO 4217.
   */
  function GetValidCurrencyCode(code: Option<string>): (r: string)
    ensures |r| == 3 && NoLowerAscii(r)
    ensures r == DefaultCode || (code.Some? && |code.value| == 3 && r == ToUpper(code.value))
    ensures code.Some? && |code.value| == 3 ==> r == ToUpper(code.value)
  {
    if code.None? || code.value == "" || code.value == "€" || code.value == "$" then DefaultCode
    else if |code.value| == 3 then ToUpper(code.value)
    else DefaultCode
  }

  /** Every input that the guard or the length test rejects gives the default code. */
  lemma FallsBackToDefault(code: Option<string>)
    requires code.None? || code.value == "" || code.value == "€" || code.value == "$" || |code.value| != 3
    ensures GetValidCurrencyCode(code) == DefaultCode
  {
  }

  lemma ToUpperIdempotent(s: string)
    ensures ToUpper(ToUpper(s)) == ToUpper(s)
  {
  }

  /** Normalising an already normalised code changes nothing. */
  lemma GetValidCurrencyCodeIdempotent(code: Option<string>)
    ensures GetValidCurrencyCode(Some(GetValidCurrencyCode(code))) == GetValidCurrencyCode(code)
  {
    var r := GetValidCurrencyCode(code);
    if r != DefaultCode {
      ToUpperIdempotent(code.value);
    }
  }

  lemma CurrencyExamples()
    ensures GetValidCurrencyCode(Some("usd")) == "USD"
    ensures GetValidCurrencyCode(Some("€")) == DefaultCode
    ensures GetValidCurrencyCode(Some("EURO")) == DefaultCode
    ensures GetValidCurrencyCode(None) == DefaultCode
  {
  }
}
