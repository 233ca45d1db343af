/** `Options` (`src/safe_cracker/options.rs`): which password sources a run uses. */
module Configuration {
  import opened Common
  import BruteForce
  import CommonPwList

  datatype Options = Options(
    quiet: bool,
    tryCommonPasswords: bool,
    commonPasswordOptions: Option<CommonPwList.CommonPwListOptions>,
    tryBruteForcing: bool,
    bruteForcingOptions: Option<BruteForce.BruteForceOptions>,
    customPwListPath: Option<string>)

  /** `Options::new`: stores each argument, unchecked, in its field. */
  function New(
    quiet: bool,
    tryCommonPasswords: bool,
    commonPasswordOptions: Option<CommonPwList.CommonPwListOptions>,
    tryBruteForcing: bool,
    bruteForcingOptions: Option<BruteForce.BruteForceOptions>,
    customPwListPath: Option<string>): (o: Options)
    ensures o.quiet == quiet && o.tryCommonPasswords == tryCommonPasswords
    ensures o.commonPasswordOptions == commonPasswordOptions
    ensures o.tryBruteForcing == tryBruteForcing && o.bruteForcingOptions == bruteForcingOptions
    ensures o.customPwListPath == customPwListPath
  {
    Options(quiet, tryCommonPasswords, commonPasswordOptions, tryBruteForcing, bruteForcingOptions, customPwListPath)
  }

  /** Every `Options` value is the result of `new` on its own fields. */
  lemma NewRoundTrip(o: Options)
    ensures New(o.quiet, o.tryCommonPasswords, o.commonPasswordOptions,
                o.tryBruteForcing, o.bruteForcingOptions, o.customPwListPath) == o
  {
  }

  /** `Options::default`: verbose, common list and brute forcing on with their
      default options, no custom list. */
  function Default(): (o: Options)
    ensures !o.quiet && o.tryCommonPasswords && o.tryBruteForcing
    ensures o.commonPasswordOptions == Some(CommonPwList.Default())
    ensures o.bruteForcingOptions == Some(BruteForce.Default())
    ensures o.customPwListPath == None
  {
    New(false, true, Some(CommonPwList.Default()), true, Some(BruteForce.Default()), None)
  }

  /** The custom construction shown in the module documentation. */
  function DocumentedCustom(): (o: Options)
    ensures o.quiet && o.tryCommonPasswords && o.tryBruteForcing
    ensures o.commonPasswordOptions == Some(CommonPwList.Default())
    ensures o.bruteForcingOptions == Some(BruteForce.Default())
    ensures o.customPwListPath == None
  {
    New(true, true, Some(CommonPwList.Default()), true, Some(BruteForce.Default()), None)
  }
}
