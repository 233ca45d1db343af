/** The adaptor boundary (`src/adaptor/base.rs`) and the equality oracle the
    tests use (`src/adaptor/custom/test_adaptor.rs`). */
module Adaptor {
  import opened Common

  /** The verdict on one candidate password. */
  datatype AttemptResult = Success | Failure

  /** An adaptor that could not run its check at all (distinct from `Failure`). */
  datatype AdaptorError = AdaptorError(message: string)

  /** `BaseAdaptor::try_password`: an adaptor is modelled by the answer it gives
      to each candidate, so any adaptor is a function of this type. */
  type BaseAdaptor = string -> Result<AttemptResult, AdaptorError>

  /** `TestAdaptor`: knows the one password it accepts. */
  datatype TestAdaptor = TestAdaptor(password: string)

  /** `TestAdaptor::new`. */
  function New(password: string): (a: TestAdaptor)
    ensures a.password == password
  {
    TestAdaptor(password)
  }

  /** `get_adaptor_name`: the same name for every test adaptor. */
  function AdaptorName(a: TestAdaptor): (name: string)
    ensures name == "TestAdaptor"
  {
    "TestAdaptor"
  }

  /** `try_password`: accepts exactly the stored password and never errs. */
  function TryPassword(a: TestAdaptor, candidate: string): (r: Result<AttemptResult, AdaptorError>)
    ensures r.Ok?
    ensures r.value == Success <==> candidate == a.password
    ensures r.value == Failure <==> candidate != a.password
  {
    if candidate == a.password then Ok(Success) else Ok(Failure)
  }

  /** The test adaptor seen through the `BaseAdaptor` interface. */
  function AsAdaptor(a: TestAdaptor): (adaptor: BaseAdaptor)
    ensures forall candidate :: adaptor(candidate) == TryPassword(a, candidate)
  {
    candidate => TryPassword(a, candidate)
  }
}
