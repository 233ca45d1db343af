/** `BruteForceOptions` (`src/safe_cracker/brute_force_options.rs`): the
    validated configuration a brute-force generator would use. */
module BruteForce {
  import opened Common

  datatype BruteForceOptions = BruteForceOptions(
    minimumSize: usize,
    maximumSize: usize,
    includeNumbers: bool,
    includeCharacters: bool,
    includeSymbols: bool)

  /** The three ways `build` refuses its arguments, in the order it checks them. */
  datatype BruteForceError =
    | SameSize(size: usize)
    | MinimumAboveMaximum(minimum: usize, maximum: usize)
    | NoCharacterClass

  /** The invariant `build` establishes: a proper size range and at least one
      character class. */
  predicate IsValid(o: BruteForceOptions) {
    o.minimumSize < o.maximumSize && (o.includeNumbers || o.includeCharacters || o.includeSymbols)
  }

  /** `BruteForceOptions::build`: the size checks come first, the class check last. */
  function Build(
    minimumSize: usize,
    maximumSize: usize,
    includeNumbers: bool,
    includeCharacters: bool,
    includeSymbols: bool): (r: Result<BruteForceOptions, BruteForceError>)
    ensures r.Ok? <==> minimumSize < maximumSize && (includeNumbers || includeCharacters || includeSymbols)
    ensures r.Ok? ==> IsValid(r.value)
    ensures r.Ok? ==> r.value == BruteForceOptions(minimumSize, maximumSize, includeNumbers, includeCharacters, includeSymbols)
    ensures minimumSize == maximumSize ==> r == Err(SameSize(maximumSize))
    ensures minimumSize > maximumSize ==> r == Err(MinimumAboveMaximum(minimumSize, maximumSize))
    ensures minimumSize < maximumSize && !includeNumbers && !includeCharacters && !includeSymbols ==>
              r == Err(NoCharacterClass)
  {
    if minimumSize == maximumSize then
      Err(SameSize(maximumSize))
    else if minimumSize >= maximumSize then
      Err(MinimumAboveMaximum(minimumSize, maximumSize))
    else if !includeNumbers && !includeSymbols && !includeCharacters then
      Err(NoCharacterClass)
    else
      Ok(BruteForceOptions(minimumSize, maximumSize, includeNumbers, includeCharacters, includeSymbols))
  }

  /** `BruteForceOptions::default`: `build(2, 10, true, true, false).unwrap()`,
      which never panics. */
  function Default(): (o: BruteForceOptions)
    ensures Build(2, 10, true, true, false) == Ok(o)
    ensures IsValid(o)
  {
    var r := Build(2, 10, true, true, false);
    assert r.Ok?;
    r.value
  }

  /** Every valid configuration is what `build` returns for its own fields. */
  lemma BuildRoundTrip(o: BruteForceOptions)
    requires IsValid(o)
    ensures Build(o.minimumSize, o.maximumSize, o.includeNumbers, o.includeCharacters, o.includeSymbols) == Ok(o)
  {
  }

  /** The assertions of the unit test `can_validate`. */
  lemma CanValidate()
    ensures Build(5, 5, true, true, true).Err?
    ensures Build(6, 3, true, true, true).Err?
    ensures Build(2, 8, true, true, true).Ok?
    ensures Build(2, 8, false, false, false).Err?
    ensures Build(2, 8, true, false, true).Ok?
  {
  }
}
