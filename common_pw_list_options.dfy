/** `CommonPwListOptions` (`src/safe_cracker/common_pw_list_options.rs`): how
    much of the built-in common password list to use. */
module CommonPwList {
  import opened Common

  /** `MAX_AMOUNT`: amounts from this value up are refused. */
  const MAX_AMOUNT: usize := 10_000_000

  /** `None` uses the whole list. */
  datatype CommonPwListOptions = CommonPwListOptions(amountToUse: Option<usize>)

  datatype CommonPwListError = AmountTooHigh(amount: usize)

  /** `CommonPwListOptions::build`: a strict ceiling, so `MAX_AMOUNT` itself is refused. */
  function Build(amountToUse: Option<usize>): (r: Result<CommonPwListOptions, CommonPwListError>)
    ensures r.Ok? <==> amountToUse.None? || amountToUse.value < MAX_AMOUNT
    ensures r.Ok? ==> r.value.amountToUse == amountToUse
    ensures r.Err? ==> amountToUse.Some? && r.error == AmountTooHigh(amountToUse.value)
  {
    match amountToUse
    case Some(amount) =>
      if amount >= MAX_AMOUNT then Err(AmountTooHigh(amount)) else Ok(CommonPwListOptions(amountToUse))
    case None => Ok(CommonPwListOptions(amountToUse))
  }

  /** `CommonPwListOptions::default`: `build(Some(1_000_000)).unwrap()`, which
      never panics. */
  function Default(): (o: CommonPwListOptions)
    ensures Build(Some(1_000_000)) == Ok(o)
    ensures o.amountToUse == Some(1_000_000)
  {
    var r := Build(Some(1_000_000));
    assert r.Ok?;
    r.value
  }

  /** The unit test `can_validate_amount`, and the boundary the field doc gets wrong. */
  lemma CanValidateAmount()
    ensures Build(Some(20_000_000)).Err?
    ensures Build(Some(MAX_AMOUNT)).Err?
    ensures Build(Some(MAX_AMOUNT - 1)).Ok?
  {
  }
}
