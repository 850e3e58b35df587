/** Parameter validators (src/quantum_sim/validators/wave_validators.py).
    Each one returns `true` on success and otherwise fails with an
    `InvalidParameterError` naming the parameter. */
module WaveValidators {
  import opened Wrappers
  import opened Exceptions

  const DefaultParameterName: string := "value"
  const PositiveMessage: string := "Value must be positive"
  const NonNegativeMessage: string := "Value must be non-negative"

  /** The message of a failed range check (the f-string at
      src/quantum_sim/validators/wave_validators.py:21); `fmt` stands for Python's
      float-to-text conversion, which is not modelled. */
  function RangeMessage(minValue: real, maxValue: real, fmt: real -> string): string
  {
    "Value must be between " + fmt(minValue) + " and " + fmt(maxValue)
  }

  function ValidatePositive(value: real, parameterName: string := DefaultParameterName): (r: Result<bool, QuantumSimError>)
    ensures r.Success? <==> value > 0.0
    ensures r.Success? ==> r.value
    ensures r.Failure? ==> r.error == InvalidParameterError(Some(parameterName), PositiveMessage)
  {
    if value <= 0.0 then Failure(InvalidParameterError(Some(parameterName), PositiveMessage))
    else Success(true)
  }

  function ValidateNonNegative(value: real, parameterName: string := DefaultParameterName): (r: Result<bool, QuantumSimError>)
    ensures r.Success? <==> value >= 0.0
    ensures r.Success? ==> r.value
    ensures r.Failure? ==> r.error == InvalidParameterError(Some(parameterName), NonNegativeMessage)
  {
    if value < 0.0 then Failure(InvalidParameterError(Some(parameterName), NonNegativeMessage))
    else Success(true)
  }

  function ValidateRange(value: real, minValue: real, maxValue: real, fmt: real -> string,
                         parameterName: string := DefaultParameterName): (r: Result<bool, QuantumSimError>)
    ensures r.Success? <==> minValue <= value && value <= maxValue
    ensures r.Success? ==> r.value
    ensures r.Failure? ==> r.error == InvalidParameterError(Some(parameterName), RangeMessage(minValue, maxValue, fmt))
  {
    if !(minValue <= value <= maxValue) then
      Failure(InvalidParameterError(Some(parameterName), RangeMessage(minValue, maxValue, fmt)))
    else Success(true)
  }

  /** Zero is the one value the non-negativity check accepts and the
      positivity check rejects. */
  lemma PositiveStricterThanNonNegative(value: real, n1: string, n2: string)
    ensures ValidatePositive(value, n1).Success? ==> ValidateNonNegative(value, n2).Success?
    ensures ValidateNonNegative(value, n2).Success? && ValidatePositive(value, n1).Failure? <==> value == 0.0
  {
  }

  /** With the bounds inverted no value passes. */
  lemma InvertedRangeRejectsAll(value: real, minValue: real, maxValue: real, fmt: real -> string, name: string)
    requires minValue > maxValue
    ensures ValidateRange(value, minValue, maxValue, fmt, name).Failure?
  {
  }

  /** A degenerate range accepts exactly its single point. */
  lemma DegenerateRange(value: real, bound: real, fmt: real -> string, name: string)
    ensures ValidateRange(value, bound, bound, fmt, name).Success? <==> value == bound
  {
  }

  /** The rendered failures carry the default parameter name. */
  lemma DefaultNameRendering(value: real)
    requires value <= 0.0
    ensures ToString(ValidatePositive(value).error) == "Value must be positive: value"
    ensures value < 0.0 ==> ToString(ValidateNonNegative(value).error) == "Value must be non-negative: value"
  {
  }
}
