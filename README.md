# ramensky password search, modelled in Dafny

The model covers the core of a small password-search engine. `SafeCracker::build`
checks the run options and loads two password lists: the built-in list of common
passwords, which can be cut down, and an optional custom list. `SafeCracker::start`
then asks an adaptor about each candidate in a fixed order. The adaptor is the
pluggable check, which says `Success`, `Failure` or fails to run. The search stops at
the first `Success`. The model also covers `PasswordReader`, an iterator that reads
several password files one after another. It also covers the two option validators,
`Options`, and the `TestAdaptor` equality oracle the unit tests use.

Files and modules:

- `common.dfy` (`Common`): `Option`, `Result`, `usize` and `Flatten`, the concatenation of a sequence of sequences.
- `adaptor.dfy` (`Adaptor`): the adaptor defined in `src/adaptor/base.rs`, modelled as a function from a candidate to
  `Result<AttemptResult, AdaptorError>`; and `TestAdaptor`.
- `brute_force_options.dfy` (`BruteForce`), `common_pw_list_options.dfy` (`CommonPwList`),
  `options.dfy` (`Configuration`): the option types, written as pure functions returning `Result`.
- `password_reader.dfy` (`PasswordReading`): class `PasswordReader`. The field `lines` holds
  what each opened file yields. `positions` holds how far each file's line iterator has read.
  `linesIndex` is the source's `lines_index`. `Next` is a recursive method, as in the
  source. It terminates because each retry leaves one source fewer.
- `safe_cracker.dfy` (`Cracking`, `CrackingProperties`): `build` as an imperative method, then
  `start` and the `try_*` helpers as functions, then lemmas and the unit-test scenarios.

Modelling decisions:

- The live body of `try_password_list` (`src/safe_cracker/safe_cracker.rs:200-236`) is unfinished
  thread and channel code. This body discards what it receives and returns `Ok(None)`. The
  sequential loop left commented out at `:223-234` is what the doc comment (`:80-88`), the trait
  doc (`src/adaptor/base.rs:10-13`) and the unit tests describe. `SearchList` and the method
  `TryPasswordList` model that loop. `start` and the `try_*` helpers use it. The live body is
  modelled separately as `TryPasswordListLive` (see Findings).
- `common_passwords_uncut[..=amount]` keeps `amount + 1` entries. It panics unless
  `amount < len`, so `Cracking.Build` requires that. The field's documentation speaks
  of "how many to use", but the model keeps `amount + 1` entries, as the code does.
- Files are inputs. `PasswordReader.Build` takes a map from each path that `File::open`
  accepts to the reads its lines give. Each read is a line or a `ReadFault`. `Cracking.Build`
  takes a `FileSystem`: the set of paths `Path::is_file` accepts and the lines of each
  readable file. A `ReadFault` reached by `next` is the panic of `res.unwrap()`. The model
  reports it as the step `Panicked`.
- `PasswordReader` has no per-source cap. It accepts an empty list of paths. It yields blank
  lines like any other line. `start` never calls the brute forcer, although the doc comment at
  `src/safe_cracker/safe_cracker.rs:87` lists brute forcing as the third step.
- `test_adaptor.rs` (lines 6 and 23) returns `SafeCrackResult`, while the trait in `base.rs:14`
  requires `AttemptResult`. Both are the same two-way verdict; the model uses `AttemptResult`.
- The field doc at `src/safe_cracker/options.rs:38` says the custom list "will run first".
  `start` runs it second, after the common list (`src/safe_cracker/safe_cracker.rs:112-120`).
  The model follows the code.

## Model

| member | source | states |
|---|---|---|
| `Adaptor.New` | src/adaptor/custom/test_adaptor.rs:13-15 | the adaptor stores the given password unchanged |
| `Adaptor.AdaptorName` | src/adaptor/custom/test_adaptor.rs:19-21 | the name is always "TestAdaptor" |
| `Adaptor.TryPassword` | src/adaptor/custom/test_adaptor.rs:23-29 | never an error; `Success` iff the candidate equals the stored password, `Failure` iff it differs |
| `Adaptor.AsAdaptor` | src/adaptor/base.rs:9-15 | the test adaptor used through the adaptor interface answers as `try_password` does |
| `BruteForce.Build` | src/safe_cracker/brute_force_options.rs:28-60 | succeeds iff min < max and some include flag is set, then stores every argument; equal sizes, then min > max, then no flag, each give its own error, so size errors win over the flag error |
| `BruteForce.Default` | src/safe_cracker/brute_force_options.rs:24-26 | `build(2, 10, true, true, false)` succeeds and gives the default, which is valid |
| `BruteForce.BuildRoundTrip` | src/safe_cracker/brute_force_options.rs:53-59 | every valid configuration is what `build` returns for its own fields |
| `BruteForce.CanValidate` | src/safe_cracker/brute_force_options.rs:67-78 | the outcomes asserted by the unit test `can_validate` |
| `CommonPwList.Build` | src/safe_cracker/common_pw_list_options.rs:17-27 | succeeds iff the amount is absent or below 10,000,000; stores the amount unchanged; the error names the amount |
| `CommonPwList.Default` | src/safe_cracker/common_pw_list_options.rs:13-15 | `build(Some(1_000_000))` succeeds and gives amount 1,000,000 |
| `CommonPwList.CanValidateAmount` | src/safe_cracker/common_pw_list_options.rs:34-37 | 20,000,000 is refused; so is exactly 10,000,000 (strict bound), while 9,999,999 is accepted |
| `Configuration.New` | src/safe_cracker/options.rs:44-60 | each of the six arguments lands unchanged in its field |
| `Configuration.NewRoundTrip` | src/safe_cracker/options.rs:52-59 | every options value is `new` applied to its own fields, so `new` loses no field (a fact about the record shape, which `Configuration.New` already implies) |
| `Configuration.Default` | src/safe_cracker/options.rs:62-71 | not quiet, common list and brute forcing on with their default options, no custom list |
| `Configuration.DocumentedCustom` | src/safe_cracker/options.rs:16 | the documented custom construction: quiet, both features on with default options, no custom list |
| `PasswordReading.PasswordReader.constructor` | src/safe_cracker/password_reader.rs:26-29 | a fresh reader is on source 0 with every source unread, so what remains is the concatenation of all sources |
| `PasswordReading.PasswordReader.Build` | src/safe_cracker/password_reader.rs:17-30 | succeeds iff every path opens; then one source per path in input order, cursor 0; otherwise it stops at the first path that does not open (the error is labelled with that path) and no reader is returned |
| `PasswordReading.PasswordReader.Next` | src/safe_cracker/password_reader.rs:36-51 | keeps the reader invariant; `lines_index` never decreases; past the last source it returns `None` and changes nothing; `None` exactly when nothing remains, and it leaves the cursor past the last source; otherwise it consumes exactly the first pending read, yielding its text or panicking on a fault |
| `PasswordReading.SkipUsedUpSource` | src/safe_cracker/password_reader.rs:44-48 | advancing past a used-up source loses no pending line |
| `PasswordReading.AdvanceOneLine` | src/safe_cracker/password_reader.rs:41-49 | reading one line of the current source consumes exactly the first pending read |
| `PasswordReading.Drain` | src/safe_cracker/password_reader.rs:66-70 | the loop collects exactly the texts before the first read fault, and panics iff a fault is pending |
| `PasswordReading.DrainIsConcatenation` | src/safe_cracker/password_reader.rs:43-50 | over fault-free sources, draining yields the concatenation of the sources' lines, by source and then by line |
| `PasswordReading.FaultInSourceIsReached` | src/safe_cracker/password_reader.rs:49 | a read fault in any source is among the pending reads, so it is reached rather than skipped |
| `PasswordReading.BuildThenDrain` | src/safe_cracker/password_reader.rs:17-51 | for any paths that all open onto fault-free files, `build` then draining yields the concatenation of the files' lines, in path order then line order |
| `PasswordReading.CanReadMultiplePwFiles` | src/safe_cracker/password_reader.rs:59-73 | the same three-line file twice yields its six lines in order |
| `Cracking.ReadLines` | src/safe_cracker/helpers.rs:4-11 | a readable file gives its lines; otherwise an error |
| `Cracking.Build` | src/safe_cracker/safe_cracker.rs:35-79 | succeeds iff each enabled stage has its options and its file; each failing check gives its error in the source's order (common, custom path, custom read, brute force); on success the common list is whole or its first `amount + 1` entries, the custom list is the whole file, the brute forcer exists iff enabled, and the options are kept |
| `Cracking.SearchList` | src/safe_cracker/safe_cracker.rs:223-234 | a reported password is on the list and accepted by the adaptor; a reported error is the adaptor's error on some candidate |
| `Cracking.TryPasswordList` | src/safe_cracker/safe_cracker.rs:223-236 | the loop returns at the first `Success` or adaptor error, and `None` after all rejections, as `SearchList` describes |
| `Cracking.TryPasswordListLive` | src/safe_cracker/safe_cracker.rs:195-237 | completes iff the adaptor never errs (otherwise the thread's `unwrap` panics); when it completes, it returns `None` whatever the adaptor answered, having received the placeholder `Some("test")` |
| `Cracking.TryPasswords` | src/safe_cracker/safe_cracker.rs:161-193 | a password the search finds is returned as `Some(Success(pw))`, with `pw` on the list and accepted; `None` exactly when the search finds nothing; errors exactly when the search errs, passing the adaptor's error through unchanged |
| `Cracking.TryCommonPasswords` | src/safe_cracker/safe_cracker.rs:130-143 | `try_passwords` over the common list when it is present; an absent list gives `None`; a hit lies in the common list |
| `Cracking.TryCustomPasswordList` | src/safe_cracker/safe_cracker.rs:145-159 | `try_passwords` over the custom list when it is present; an absent list gives `None`; a hit lies in the custom list |
| `Cracking.Start` | src/safe_cracker/safe_cracker.rs:104-128 | a reported success is one of the candidates, and the adaptor accepts it |
| `CrackingProperties.SearchListNoneIffAllRejected` | src/safe_cracker/safe_cracker.rs:223-234 | the search finds nothing iff the adaptor rejects every candidate |
| `CrackingProperties.SearchListFindsFirstAccepted` | src/safe_cracker/safe_cracker.rs:228-232 | the first accepted candidate after only rejections is the one reported |
| `CrackingProperties.SearchListStopsAtError` | src/adaptor/base.rs:10-14 | an adaptor error after only rejections stops the search and is propagated |
| `CrackingProperties.SearchListAppend` | src/safe_cracker/safe_cracker.rs:112-120 | searching two lists one after the other equals searching their concatenation |
| `CrackingProperties.StartSearchesCandidates` | src/safe_cracker/safe_cracker.rs:80-88 | `start` is one search over the common list followed by the custom list; an absent list contributes nothing; `Failure` only when no candidate is accepted |
| `CrackingProperties.TestAdaptorSearch` | src/adaptor/custom/test_adaptor.rs:23-29 | with the test adaptor, a search finds the target iff it is on the list |
| `CrackingProperties.StartFindsTarget` | src/safe_cracker/safe_cracker.rs:112-127 | with the test adaptor, `start` returns `Success` carrying exactly the target iff either list holds it, else `Failure` |
| `CrackingProperties.DefaultOptionsPresent` | src/safe_cracker/options.rs:62-71 | the default options and the documented custom options both pass the two option-presence checks of `build` |
| `CrackingProperties.DefaultBuilds` | src/safe_cracker/options.rs:7 | `build(Options::default())` succeeds once the common list has more than 1,000,000 lines, and keeps 1,000,001 of them |
| `CrackingProperties.ShouldFindInCommonPasswords` | src/safe_cracker/safe_cracker.rs:249-272 | with "qwerty" fourth in the common list, `start` returns `Success("qwerty")` |
| `CrackingProperties.ShouldValidateCustomListPath` | src/safe_cracker/safe_cracker.rs:274-291 | a custom path that is not a regular file makes `build` fail with that path |
| `CrackingProperties.ShouldFindInCustomList` | src/safe_cracker/safe_cracker.rs:293-318 | with the custom list test1, test2, test3, `start` returns `Success("test2")` |
| `CrackingProperties.LiveBodyMissesCustomMatch` | src/safe_cracker/safe_cracker.rs:200-236 | on that same list, the live body returns `None` where the sequential loop returns `Some("test2")` |

## Left out

- `src/adaptor/custom/zip_adaptor.rs`: it runs `unzip` through a shell, which is an external process. Adaptors are modelled only as functions from a candidate to a verdict.
- The threads and the channel in `try_password_list`: only their observable result is modelled (`TryPasswordListLive`).
- Logging (`print_with_ts!`, so the `quiet` flag has no effect in the model), `chrono` timestamps and `Instant`/`Duration`: console I/O and the wall clock. `PasswordCrackResult` drops its elapsed time.
- File access (`read_to_string` and `str::lines` in `helpers.rs`, `File::open`/`BufReader` in `password_reader.rs`, `Path::is_file`): file contents, openability and "is a regular file" are inputs.
- `src/safe_cracker/brute_forcer.rs`: a stub that only stores its options, modelled as a datatype; there is no generation algorithm, and `start` never calls it.
- `src/safe_cracker/reader_configuration.rs` and `src/adaptor/field_type.rs`: they are used by nothing in the core.
- `get_adaptor_name` is implemented by `TestAdaptor` but is not part of the trait shown in `base.rs`. It is modelled on `TestAdaptor` alone. The tests build the adaptor with `TestAdaptor::without_delay`, which `test_adaptor.rs` does not define. The model uses `new`.
- `src/main.rs`, `benches/benchmark.rs`, `tests/integration_tests.rs`, `src/safe_cracker/mod.rs`, `doc/search-index.js`: program entry point, benchmark, integration test, module list and generated documentation. `main.rs` and the integration test call older signatures.
- `Cracking.ReadLines`, `PasswordReading.PasswordReader.Build`: the errors `ReadFailed(path)` and `CannotOpen(path)` carry the path as a label of the model. The source's `io::Error`s from `read_to_string(...)?` (`helpers.rs:5`) and `File::open(path)?` (`password_reader.rs:21`) do not name the file.
- `Cracking.Build`: the panic of `[..=amount]` for an amount past the end of the list is excluded by a precondition rather than modelled as an outcome.
- `PasswordReading.PasswordReader.Next`: the bound on how many empty sources one call crosses is stated by its `decreases` clause (sources left), not as a counted number of steps.

## Findings

| source | as written | input that shows it | evidently intended | confidence | as-written member | corrected member |
|---|---|---|---|---|---|---|
| src/safe_cracker/safe_cracker.rs:200-236 | the live body of `try_password_list` discards the received message and always returns `Ok(None)`, so `start` never reports a success from either list | the data of `should_find_in_custom_list`: custom list test1, test2, test3 and a test adaptor for "test2" | return the first candidate the adaptor accepts, as the commented sequential loop at `:223-234` and the unit tests expect | not executed | `Cracking.TryPasswordListLive`, exhibited by `CrackingProperties.LiveBodyMissesCustomMatch` | `Cracking.TryPasswordList` (proved equal to `Cracking.SearchList`, which `Cracking.Start` uses; see `CrackingProperties.StartFindsTarget`) |
