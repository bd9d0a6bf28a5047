/**
 * The guard checks at the top of the three request handlers. Each returns the message
 * the handler shows when the input is rejected, or (for the length mode) the parsed length.
 */
module Validation {
  import opened Wrappers
  import opened JsText

  const SamplesMissing: string := "Please provide some sample passwords."
  const TargetMissing: string :=
    "Please provide at least one piece of target information (Manufacturer, Model, or Common Usernames)."
  const LengthOutOfRange: string := "Please enter a valid password length between 6 and 30 characters."
  const CountOutOfRange: string := "Please enter a number of passwords to generate between 1 and 200."

  /** `!samplePasswords.trim()`: rejected exactly when the samples are all whitespace. */
  function CheckSamples(samplePasswords: string): (r: Option<string>)
    ensures r.Some? <==> AllWhitespace(samplePasswords)
    ensures r.Some? ==> r.value == SamplesMissing
  {
    if Trim(samplePasswords) == [] then Some(SamplesMissing) else None
  }

  /** Rejected exactly when all three target fields are all whitespace. */
  function CheckTarget(deviceManufacturer: string, deviceModel: string, commonUsernames: string): (r: Option<string>)
    ensures r.Some? <==>
      AllWhitespace(deviceManufacturer) && AllWhitespace(deviceModel) && AllWhitespace(commonUsernames)
    ensures r.Some? ==> r.value == TargetMissing
  {
    if Trim(deviceManufacturer) == [] && Trim(deviceModel) == [] && Trim(commonUsernames) == [] then
      Some(TargetMissing)
    else None
  }

  /** `parseInt(passwordLength)` is a number in [6, 30]. */
  predicate LengthInRange(passwordLength: string)
  {
    ParseInt(passwordLength).Some? && 6 <= ParseInt(passwordLength).value <= 30
  }

  /** The requested number of passwords is in [1, 200]. */
  predicate CountInRange(count: int)
  {
    1 <= count <= 200
  }

  /**
   * The two checks of the length mode, in order: the length first, then the count. On
   * success the result is the parsed length.
   */
  function CheckLength(passwordLength: string, count: int): (r: Result<nat, string>)
    ensures r.Success? <==> LengthInRange(passwordLength) && CountInRange(count)
    ensures r.Success? ==> ParseInt(passwordLength) == Some(r.value as int) && 6 <= r.value <= 30
    ensures !LengthInRange(passwordLength) ==> r == Failure(LengthOutOfRange)
    ensures LengthInRange(passwordLength) && !CountInRange(count) ==> r == Failure(CountOutOfRange)
  {
    match ParseInt(passwordLength)
    case None => Failure(LengthOutOfRange)
    case Some(length) =>
      if length < 6 || length > 30 then Failure(LengthOutOfRange)
      else if count < 1 || count > 200 then Failure(CountOutOfRange)
      else Success(length)
  }

  /** A length typed as plain digits in [6, 30], with a count in [1, 200], passes with that length. */
  lemma TypedLengthAccepted(length: nat, count: int)
    requires 6 <= length <= 30 && CountInRange(count)
    ensures CheckLength(Decimal(length), count) == Success(length)
  {
    assert Decimal(length) + "" == Decimal(length);
    ParseDecimal(length, "");
  }

  /** A typed length below 6 or above 30 is rejected with the length message whatever the count. */
  lemma TypedLengthRejected(length: nat, count: int)
    requires length < 6 || length > 30
    ensures CheckLength(Decimal(length), count) == Failure(LengthOutOfRange)
  {
    assert Decimal(length) + "" == Decimal(length);
    ParseDecimal(length, "");
  }

  /** A length typed with a minus sign is negative, so it is rejected with the length message whatever the count. */
  lemma TypedNegativeLengthRejected(length: nat, count: int)
    ensures CheckLength("-" + Decimal(length), count) == Failure(LengthOutOfRange)
  {
    assert "-" + Decimal(length) + "" == "-" + Decimal(length);
    ParseNegativeDecimal(length, "");
  }

  /** `parseInt(value) || 0`: how the count field turns what was typed into a number. */
  function CountFromInput(value: string): (r: int)
    ensures ParseInt(value).None? ==> r == 0
    ensures ParseInt(value).Some? ==> r == ParseInt(value).value
  {
    match ParseInt(value)
    case None => 0
    case Some(n) => n
  }

  /** Typed digits become the count they spell. */
  lemma CountFromTypedDigits(count: nat)
    ensures CountFromInput(Decimal(count)) == count
  {
    assert Decimal(count) + "" == Decimal(count);
    ParseDecimal(count, "");
  }
}
