/** `SafeCracker` (`src/safe_cracker/safe_cracker.rs`): builds the password
    lists from validated options and asks an adaptor about each candidate. */
module Cracking {
  import opened Common
  import Adaptor
  import BruteForce
  import CommonPwList
  import opened Configuration

  /** `COMMON_PW_PATH`: where the built-in common password list lives. */
  const COMMON_PW_PATH: string := "resources/common-passwords.txt"

  /** The file system as `build` sees it: the paths `Path::is_file` accepts, and
      for each path `read_to_string` can read, its `str::lines`. */
  datatype FileSystem = FileSystem(regularFiles: set<string>, contents: map<string, seq<string>>)

  /** `BruteForcer`: only stores its options. */
  datatype BruteForcer = BruteForcer(options: BruteForce.BruteForceOptions)

  /** A built search driver; `start` never changes it. */
  datatype SafeCracker = SafeCracker(
    commonPasswords: Option<seq<string>>,
    customPasswords: Option<seq<string>>,
    bruteForcer: Option<BruteForcer>,
    options: Options)

  /** The errors `build` returns, one per early return. */
  datatype BuildError =
    | MissingCommonPasswordOptions
    | ReadFailed(path: string)
    | InvalidCustomPath(path: string)
    | MissingBruteForcingOptions

  /** `PasswordCrackResult`, without the elapsed time. */
  datatype PasswordCrackResult = Success(password: string) | Failure

  /** `read_lines` (`helpers.rs`): the file's lines, or the read error. */
  function ReadLines(fs: FileSystem, path: string): (r: Result<seq<string>, BuildError>)
    ensures r.Ok? <==> path in fs.contents
    ensures r.Ok? ==> r.value == fs.contents[path]
    ensures r.Err? ==> r.error == ReadFailed(path)
  {
    if path in fs.contents then Ok(fs.contents[path]) else Err(ReadFailed(path))
  }

  /** Each enabled feature has its options set: the two presence checks of `build`. */
  predicate OptionsPresent(o: Options) {
    (o.tryCommonPasswords ==> o.commonPasswordOptions.Some?)
    && (o.tryBruteForcing ==> o.bruteForcingOptions.Some?)
  }

  /** `build` stores `common_passwords_uncut[..=amount]`, which panics unless
      `amount` is an index of the list; callers must stay inside it. */
  predicate TruncationInBounds(o: Options, fs: FileSystem) {
    o.tryCommonPasswords && o.commonPasswordOptions.Some? && o.commonPasswordOptions.value.amountToUse.Some?
    && COMMON_PW_PATH in fs.contents
    ==> o.commonPasswordOptions.value.amountToUse.value < |fs.contents[COMMON_PW_PATH]|
  }

  /** The common-list stage of `build` succeeds. */
  predicate CommonStageOk(o: Options, fs: FileSystem) {
    o.tryCommonPasswords ==> o.commonPasswordOptions.Some? && COMMON_PW_PATH in fs.contents
  }

  /** The custom-list stage of `build` succeeds. */
  predicate CustomStageOk(o: Options, fs: FileSystem) {
    o.customPwListPath.Some? ==>
      o.customPwListPath.value in fs.regularFiles && o.customPwListPath.value in fs.contents
  }

  /** `SafeCracker::build`: checks and loads the common list, then the custom
      list, then the brute-force options, returning at the first problem. */
  method Build(options: Options, fs: FileSystem) returns (r: Result<SafeCracker, BuildError>)
    requires TruncationInBounds(options, fs)
    ensures r.Ok? <==> CommonStageOk(options, fs) && CustomStageOk(options, fs)
                       && (options.tryBruteForcing ==> options.bruteForcingOptions.Some?)
    ensures r.Ok? ==> OptionsPresent(options)
    ensures options.tryCommonPasswords && options.commonPasswordOptions.None? ==>
              r == Err(MissingCommonPasswordOptions)
    ensures options.tryCommonPasswords && options.commonPasswordOptions.Some? && COMMON_PW_PATH !in fs.contents ==>
              r == Err(ReadFailed(COMMON_PW_PATH))
    ensures CommonStageOk(options, fs) && options.customPwListPath.Some?
            && options.customPwListPath.value !in fs.regularFiles ==>
              r == Err(InvalidCustomPath(options.customPwListPath.value))
    ensures CommonStageOk(options, fs) && options.customPwListPath.Some?
            && options.customPwListPath.value in fs.regularFiles && options.customPwListPath.value !in fs.contents ==>
              r == Err(ReadFailed(options.customPwListPath.value))
    ensures CommonStageOk(options, fs) && CustomStageOk(options, fs)
            && options.tryBruteForcing && options.bruteForcingOptions.None? ==>
              r == Err(MissingBruteForcingOptions)
    ensures r.Ok? ==> r.value.options == options
    ensures r.Ok? ==> (r.value.commonPasswords.Some? <==> options.tryCommonPasswords)
    ensures r.Ok? && options.tryCommonPasswords && options.commonPasswordOptions.value.amountToUse.None? ==>
              r.value.commonPasswords == Some(fs.contents[COMMON_PW_PATH])
    ensures r.Ok? && options.tryCommonPasswords && options.commonPasswordOptions.value.amountToUse.Some? ==>
              var kept := r.value.commonPasswords.value;
              |kept| == options.commonPasswordOptions.value.amountToUse.value + 1
              && kept <= fs.contents[COMMON_PW_PATH]
    ensures r.Ok? ==> (r.value.customPasswords.Some? <==> options.customPwListPath.Some?)
    ensures r.Ok? && options.customPwListPath.Some? ==>
              r.value.customPasswords == Some(fs.contents[options.customPwListPath.value])
    ensures r.Ok? ==> (r.value.bruteForcer.Some? <==> options.tryBruteForcing)
    ensures r.Ok? && options.tryBruteForcing ==>
              r.value.bruteForcer == Some(BruteForcer(options.bruteForcingOptions.value))
  {
    var commonPasswords: Option<seq<string>> := None;
    var customPasswords: Option<seq<string>> := None;
    var bruteForcer: Option<BruteForcer> := None;

    if options.tryCommonPasswords {
      match options.commonPasswordOptions {
        case Some(opt) =>
          var read := ReadLines(fs, COMMON_PW_PATH);
          if read.Err? {
            return Err(read.error);
          }
          var commonPasswordsUncut := read.value;
          if opt.amountToUse.Some? {
            commonPasswordsUncut := commonPasswordsUncut[..opt.amountToUse.value + 1];
          }
          commonPasswords := Some(commonPasswordsUncut);
        case None =>
          return Err(MissingCommonPasswordOptions);
      }
    }

    if options.customPwListPath.Some? {
      var customPath := options.customPwListPath.value;
      if customPath !in fs.regularFiles {
        return Err(InvalidCustomPath(customPath));
      }
      var read := ReadLines(fs, customPath);
      if read.Err? {
        return Err(read.error);
      }
      customPasswords := Some(read.value);
    }

    if options.tryBruteForcing {
      match options.bruteForcingOptions {
        case Some(opt) =>
          bruteForcer := Some(BruteForcer(opt));
        case None =>
          return Err(MissingBruteForcingOptions);
      }
    }

    return Ok(SafeCracker(commonPasswords, customPasswords, bruteForcer, options));
  }

  /** The commented-out sequential loop of `try_password_list` as a function:
      the first candidate the adaptor accepts; a rejection moves on, an adaptor
      error stops the search and is returned. */
  function SearchList(adaptor: Adaptor.BaseAdaptor, passwordList: seq<string>): (r: Result<Option<string>, Adaptor.AdaptorError>)
    ensures r.Ok? && r.value.Some? ==> r.value.value in passwordList && adaptor(r.value.value) == Ok(Adaptor.Success)
    ensures r.Err? ==> exists k :: 0 <= k < |passwordList| && adaptor(passwordList[k]) == Err(r.error)
    decreases |passwordList|
  {
    if passwordList == [] then Ok(None)
    else
      match adaptor(passwordList[0])
      case Err(e) => Err(e)
      case Ok(Success) => Ok(Some(passwordList[0]))
      case Ok(Failure) => SearchList(adaptor, passwordList[1..])
  }

  /** The adaptor rejects every candidate of the list. */
  ghost predicate AllRejected(adaptor: Adaptor.BaseAdaptor, passwordList: seq<string>) {
    forall j :: 0 <= j < |passwordList| ==> adaptor(passwordList[j]) == Ok(Adaptor.Failure)
  }

  /** `try_password_list` as the sequential loop its documentation describes. */
  method TryPasswordList(adaptor: Adaptor.BaseAdaptor, passwordList: seq<string>)
    returns (r: Result<Option<string>, Adaptor.AdaptorError>)
    ensures r == SearchList(adaptor, passwordList)
  {
    for i := 0 to |passwordList|
      invariant SearchList(adaptor, passwordList[i..]) == SearchList(adaptor, passwordList)
    {
      assert passwordList[i..][1..] == passwordList[i + 1..];
      var pw := passwordList[i];
      var result := adaptor(pw);
      match result {
        case Err(e) => return Err(e);
        case Ok(Success) => return Ok(Some(pw));
        case Ok(Failure) =>
      }
    }
    return Ok(None);
  }

  /** How the live body of `try_password_list` ends: it returns after the
      scoped thread joins, or the thread's `unwrap` on an adaptor error panics. */
  datatype LiveOutcome = Completed(received: Option<string>, value: Option<string>) | ThreadPanicked

  /** The live body of `try_password_list`: a scoped thread asks the adaptor
      about every candidate, sending the placeholder `Some("test")` on each
      success and once more at the end; the caller receives the first message
      and then returns `Ok(None)` whatever it received. */
  method TryPasswordListLive(adaptor: Adaptor.BaseAdaptor, passwordList: seq<string>) returns (r: LiveOutcome)
    ensures r.Completed? <==> forall j :: 0 <= j < |passwordList| ==> adaptor(passwordList[j]).Ok?
    ensures r.Completed? ==> r.value == None && r.received == Some("test")
  {
    var channel: seq<Option<string>> := [];
    for i := 0 to |passwordList|
      invariant forall j :: 0 <= j < i ==> adaptor(passwordList[j]).Ok?
      invariant forall m :: 0 <= m < |channel| ==> channel[m] == Some("test")
    {
      var result := adaptor(passwordList[i]);
      match result {
        case Err(_) => return ThreadPanicked;
        case Ok(Success) => channel := channel + [Some("test")];
        case Ok(Failure) =>
      }
    }
    channel := channel + [Some("test")];
    var received := channel[0];
    return Completed(received, None);
  }

  /** `try_passwords`: a found password becomes a `Success` result. */
  function TryPasswords(adaptor: Adaptor.BaseAdaptor, passwordList: seq<string>)
    : (r: Result<Option<PasswordCrackResult>, Adaptor.AdaptorError>)
    ensures r.Ok? && r.value.Some? ==> r.value.value.Success?
    ensures r.Ok? && r.value.Some? ==>
              r.value.value.password in passwordList && adaptor(r.value.value.password) == Ok(Adaptor.Success)
    ensures r.Err? <==> SearchList(adaptor, passwordList).Err?
    ensures r.Err? ==> r.error == SearchList(adaptor, passwordList).error
    ensures r == Ok(None) <==> SearchList(adaptor, passwordList) == Ok(None)
    ensures SearchList(adaptor, passwordList).Ok? && SearchList(adaptor, passwordList).value.Some? ==>
              r == Ok(Some(Success(SearchList(adaptor, passwordList).value.value)))
  {
    match SearchList(adaptor, passwordList)
    case Err(e) => Err(e)
    case Ok(Some(pw)) => Ok(Some(Success(pw)))
    case Ok(None) => Ok(None)
  }

  /** `try_common_passwords`: an absent common list contributes nothing. */
  function TryCommonPasswords(c: SafeCracker, adaptor: Adaptor.BaseAdaptor)
    : (r: Result<Option<PasswordCrackResult>, Adaptor.AdaptorError>)
    ensures c.commonPasswords.None? ==> r == Ok(None)
    ensures r == TryPasswords(adaptor, c.commonPasswords.GetOr([]))
    ensures r.Ok? && r.value.Some? ==>
              c.commonPasswords.Some? && r.value.value.Success? && r.value.value.password in c.commonPasswords.value
  {
    match c.commonPasswords
    case Some(commonPasswords) => TryPasswords(adaptor, commonPasswords)
    case None => Ok(None)
  }

  /** `try_custom_password_list`: an absent custom list contributes nothing. */
  function TryCustomPasswordList(c: SafeCracker, adaptor: Adaptor.BaseAdaptor)
    : (r: Result<Option<PasswordCrackResult>, Adaptor.AdaptorError>)
    ensures c.customPasswords.None? ==> r == Ok(None)
    ensures r == TryPasswords(adaptor, c.customPasswords.GetOr([]))
    ensures r.Ok? && r.value.Some? ==>
              c.customPasswords.Some? && r.value.value.Success? && r.value.value.password in c.customPasswords.value
  {
    match c.customPasswords
    case Some(customPasswords) => TryPasswords(adaptor, customPasswords)
    case None => Ok(None)
  }

  /** Every candidate `start` may try, in the order it tries them. */
  function Candidates(c: SafeCracker): seq<string> {
    c.commonPasswords.GetOr([]) + c.customPasswords.GetOr([])
  }

  /** `start`: the common list first, then the custom list; `Failure` only when
      neither has a password the adaptor accepts. */
  function Start(c: SafeCracker, adaptor: Adaptor.BaseAdaptor): (r: Result<PasswordCrackResult, Adaptor.AdaptorError>)
    ensures r.Ok? && r.value.Success? ==>
              r.value.password in Candidates(c) && adaptor(r.value.password) == Ok(Adaptor.Success)
  {
    match TryCommonPasswords(c, adaptor)
    case Err(e) => Err(e)
    case Ok(Some(successResult)) => Ok(successResult)
    case Ok(None) =>
      match TryCustomPasswordList(c, adaptor)
      case Err(e) => Err(e)
      case Ok(Some(successResult)) => Ok(successResult)
      case Ok(None) => Ok(Failure)
  }
}

module CrackingProperties {
  import opened Common
  import Adaptor
  import CommonPwList
  import opened Configuration
  import opened Cracking

  /** The search reports `None` exactly when every candidate is rejected. */
  lemma {:induction false} SearchListNoneIffAllRejected(adaptor: Adaptor.BaseAdaptor, passwordList: seq<string>)
    ensures SearchList(adaptor, passwordList) == Ok(None) <==> AllRejected(adaptor, passwordList)
    decreases |passwordList|
  {
    if passwordList != [] {
      SearchListNoneIffAllRejected(adaptor, passwordList[1..]);
      assert forall j :: 1 <= j < |passwordList| ==> passwordList[j] == passwordList[1..][j - 1];
    }
  }

  /** The first accepted candidate, after only rejections, is the one reported. */
  lemma {:induction false} SearchListFindsFirstAccepted(adaptor: Adaptor.BaseAdaptor, passwordList: seq<string>, k: nat)
    requires k < |passwordList| && AllRejected(adaptor, passwordList[..k])
    requires adaptor(passwordList[k]) == Ok(Adaptor.Success)
    ensures SearchList(adaptor, passwordList) == Ok(Some(passwordList[k]))
    decreases k
  {
    if k > 0 {
      assert passwordList[..k][0] == passwordList[0];
      assert passwordList[1..][..k - 1] == passwordList[1..k];
      assert forall j :: 0 <= j < k - 1 ==> passwordList[1..k][j] == passwordList[..k][j + 1];
      SearchListFindsFirstAccepted(adaptor, passwordList[1..], k - 1);
    }
  }

  /** An adaptor error after only rejections stops the search with that error. */
  lemma {:induction false} SearchListStopsAtError(adaptor: Adaptor.BaseAdaptor, passwordList: seq<string>, k: nat)
    requires k < |passwordList| && AllRejected(adaptor, passwordList[..k])
    requires adaptor(passwordList[k]).Err?
    ensures SearchList(adaptor, passwordList) == Err(adaptor(passwordList[k]).error)
    decreases k
  {
    if k > 0 {
      assert passwordList[..k][0] == passwordList[0];
      assert passwordList[1..][..k - 1] == passwordList[1..k];
      assert forall j :: 0 <= j < k - 1 ==> passwordList[1..k][j] == passwordList[..k][j + 1];
      SearchListStopsAtError(adaptor, passwordList[1..], k - 1);
    }
  }

  /** Searching two lists one after the other is searching their concatenation. */
  lemma {:induction false} SearchListAppend(adaptor: Adaptor.BaseAdaptor, first: seq<string>, second: seq<string>)
    ensures SearchList(adaptor, first + second) ==
            if SearchList(adaptor, first) == Ok(None) then SearchList(adaptor, second) else SearchList(adaptor, first)
    decreases |first|
  {
    if first == [] {
      assert first + second == second;
    } else {
      assert (first + second)[0] == first[0] && (first + second)[1..] == first[1..] + second;
      SearchListAppend(adaptor, first[1..], second);
    }
  }

  /** The outcome `start` reports for a search result. */
  function AsCrackResult(r: Result<Option<string>, Adaptor.AdaptorError>): Result<PasswordCrackResult, Adaptor.AdaptorError> {
    match r
    case Err(e) => Err(e)
    case Ok(Some(pw)) => Ok(Success(pw))
    case Ok(None) => Ok(Failure)
  }

  /** `start` is one sequential search over the common list followed by the
      custom list: the first accepted candidate in that order wins, an adaptor
      error propagates, and an absent list contributes nothing. */
  lemma StartSearchesCandidates(c: SafeCracker, adaptor: Adaptor.BaseAdaptor)
    ensures Start(c, adaptor) == AsCrackResult(SearchList(adaptor, Candidates(c)))
  {
    SearchListAppend(adaptor, c.commonPasswords.GetOr([]), c.customPasswords.GetOr([]));
  }

  /** With the test adaptor, the search finds the target exactly when it is listed. */
  lemma {:induction false} TestAdaptorSearch(target: string, passwordList: seq<string>)
    ensures SearchList(Adaptor.AsAdaptor(Adaptor.New(target)), passwordList) ==
            if target in passwordList then Ok(Some(target)) else Ok(None)
    decreases |passwordList|
  {
    if passwordList != [] {
      assert passwordList == [passwordList[0]] + passwordList[1..];
      TestAdaptorSearch(target, passwordList[1..]);
    }
  }

  /** With the test adaptor, `start` succeeds with exactly the target string
      when either list holds it, and reports `Failure` otherwise. */
  lemma StartFindsTarget(c: SafeCracker, target: string)
    ensures Start(c, Adaptor.AsAdaptor(Adaptor.New(target))) ==
            if target in Candidates(c) then Ok(Success(target)) else Ok(Failure)
  {
    StartSearchesCandidates(c, Adaptor.AsAdaptor(Adaptor.New(target)));
    TestAdaptorSearch(target, Candidates(c));
  }

  /** The default options, and the documented custom ones, pass both presence checks. */
  lemma DefaultOptionsPresent()
    ensures OptionsPresent(Default())
    ensures OptionsPresent(DocumentedCustom())
  {
  }

  /** The doc example `SafeCracker::build(Options::default()).unwrap()`: it
      succeeds whenever the common list is readable and longer than the default amount. */
  method DefaultBuilds(fs: FileSystem) returns (c: SafeCracker)
    requires COMMON_PW_PATH in fs.contents && |fs.contents[COMMON_PW_PATH]| > 1_000_000
    ensures c.commonPasswords.Some? && |c.commonPasswords.value| == 1_000_001
    ensures c.customPasswords.None? && c.bruteForcer.Some?
  {
    var built := Build(Default(), fs);
    c := built.value;
  }

  /** The unit test `should_find_in_common_passwords`: "qwerty", fourth in the
      common list, is found. */
  method ShouldFindInCommonPasswords(fs: FileSystem) returns (r: Result<PasswordCrackResult, Adaptor.AdaptorError>)
    requires COMMON_PW_PATH in fs.contents && |fs.contents[COMMON_PW_PATH]| > 1_000_000
    requires fs.contents[COMMON_PW_PATH][3] == "qwerty"
    ensures r == Ok(Success("qwerty"))
  {
    var built := Build(New(true, true, Some(CommonPwList.Default()), false, None, None), fs);
    var c := built.value;
    assert c.commonPasswords.value[3] == "qwerty";
    assert "qwerty" in Candidates(c);
    StartFindsTarget(c, "qwerty");
    r := Start(c, Adaptor.AsAdaptor(Adaptor.New("qwerty")));
  }

  /** The unit test `should_validate_custom_list_path`: a path that is not a
      regular file is refused. */
  method ShouldValidateCustomListPath(fs: FileSystem, customPath: string) returns (r: Result<SafeCracker, BuildError>)
    requires customPath !in fs.regularFiles
    ensures r == Err(InvalidCustomPath(customPath))
  {
    r := Build(New(true, false, None, false, None, Some(customPath)), fs);
  }

  /** The unit test `should_find_in_custom_list`: "test2" of the three-line custom list is found. */
  method ShouldFindInCustomList(fs: FileSystem, customPath: string) returns (r: Result<PasswordCrackResult, Adaptor.AdaptorError>)
    requires customPath in fs.regularFiles && customPath in fs.contents
    requires fs.contents[customPath] == ["test1", "test2", "test3"]
    ensures r == Ok(Success("test2"))
  {
    var built := Build(New(true, false, None, false, None, Some(customPath)), fs);
    var c := built.value;
    assert Candidates(c) == ["test1", "test2", "test3"];
    StartFindsTarget(c, "test2");
    r := Start(c, Adaptor.AsAdaptor(Adaptor.New("test2")));
  }

  /** The live body of `try_password_list` loses the match the sequential
      loop finds, on the data of `should_find_in_custom_list`. */
  method LiveBodyMissesCustomMatch() returns (live: LiveOutcome, reference: Result<Option<string>, Adaptor.AdaptorError>)
    ensures live == Completed(Some("test"), None)
    ensures reference == Ok(Some("test2"))
  {
    var adaptor := Adaptor.AsAdaptor(Adaptor.New("test2"));
    var list := ["test1", "test2", "test3"];
    live := TryPasswordListLive(adaptor, list);
    TestAdaptorSearch("test2", list);
    reference := TryPasswordList(adaptor, list);
  }
}
