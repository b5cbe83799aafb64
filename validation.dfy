/** Accept/reject checks on configuration values (src/lib/validation.ts,
    copied inline in src/checkout.ts:46-84). A check either passes or fails
    with the first violated rule; it has no other effect. */
module Validation {
  import opened Contract

  /** The parameter a failed check names. */
  datatype Param = Price | Markdown | BuyN | GetM | PercentOff | Limit | N | X

  datatype ValidationError =
    | MustBeNonNegative(param: Param)
    | MustBePositive(param: Param)
    | PercentOffExceedsMax

  datatype Outcome = Pass | Fail(error: ValidationError) {
    /** Runs `next` only when this check passed: the checks run in order and
        the first failure is the one reported. */
    function AndThen(next: Outcome): (r: Outcome)
      ensures r.Pass? <==> Pass? && next.Pass?
      ensures Fail? ==> r == this
    {
      if Fail? then this else next
    }
  }

  /** `validatePositiveNumber`: despite its name it accepts zero. */
  function ValidatePositiveNumber(value: real, param: Param): (r: Outcome)
    ensures r.Pass? <==> value >= 0.0
    ensures r.Fail? ==> r.error == MustBeNonNegative(param)
  {
    if value < 0.0 then Fail(MustBeNonNegative(param)) else Pass
  }

  /** The optional limit of a special: when given it must be at least 1. */
  function ValidateLimit(limit: Option<int>): (r: Outcome)
    ensures r.Pass? <==> (limit.Some? ==> limit.value > 0)
  {
    match limit
    case None => Pass
    case Some(l) =>
      ValidatePositiveNumber(l as real, Limit)
        .AndThen(if l == 0 then Fail(MustBePositive(Limit)) else Pass)
  }

  /** `validateSpecialParams`, shared by the unit and the weighted buy-N-get-M specials. */
  function ValidateSpecialParams(buyN: int, getM: int, percentOff: real, limit: Option<int>): (r: Outcome)
    ensures r.Pass? <==>
      buyN > 0 && getM > 0 && 0.0 <= percentOff <= MAX_PERCENT && (limit.Some? ==> limit.value > 0)
    // the sign checks run first: a negative value is never reported as zero or as too large
    ensures buyN < 0 ==> r == Fail(MustBeNonNegative(BuyN))
    ensures buyN >= 0 && getM < 0 ==> r == Fail(MustBeNonNegative(GetM))
    ensures buyN >= 0 && getM >= 0 && percentOff < 0.0 ==> r == Fail(MustBeNonNegative(PercentOff))
  {
    ValidatePositiveNumber(buyN as real, BuyN)
      .AndThen(ValidatePositiveNumber(getM as real, GetM))
      .AndThen(ValidatePositiveNumber(percentOff, PercentOff))
      .AndThen(if buyN == 0 then Fail(MustBePositive(BuyN)) else Pass)
      .AndThen(if getM == 0 then Fail(MustBePositive(GetM)) else Pass)
      .AndThen(if percentOff > MAX_PERCENT then Fail(PercentOffExceedsMax) else Pass)
      .AndThen(ValidateLimit(limit))
  }

  /** `validateNForXParams`: a bundle price of 0 is accepted. */
  function ValidateNForXParams(n: int, x: real, limit: Option<int>): (r: Outcome)
    ensures r.Pass? <==> n > 0 && x >= 0.0 && (limit.Some? ==> limit.value > 0)
    ensures n < 0 ==> r == Fail(MustBeNonNegative(N))
    ensures n >= 0 && x < 0.0 ==> r == Fail(MustBeNonNegative(X))
  {
    ValidatePositiveNumber(n as real, N)
      .AndThen(ValidatePositiveNumber(x, X))
      .AndThen(if n == 0 then Fail(MustBePositive(N)) else Pass)
      .AndThen(ValidateLimit(limit))
  }

  /** The optional limit after it passed validation. */
  function CheckedLimit(limit: Option<int>): (r: Option<Pos>)
    requires limit.Some? ==> limit.value > 0
    ensures r.Some? <==> limit.Some?
    ensures r.Some? ==> r.value == limit.value
  {
    match limit
    case None => None
    case Some(l) => Some(l)
  }

  /** The boundary percentages 0 and 100 are both accepted. */
  lemma BoundaryPercentagesAccepted(buyN: int, getM: int, limit: Option<int>)
    requires buyN > 0 && getM > 0 && (limit.Some? ==> limit.value > 0)
    ensures ValidateSpecialParams(buyN, getM, 0.0, limit) == Pass
    ensures ValidateSpecialParams(buyN, getM, 100.0, limit) == Pass
    ensures ValidateSpecialParams(buyN, getM, 100.5, limit) == Fail(PercentOffExceedsMax)
  {
  }
}
