/** The application layer's `Result` and `Result<T>` shapes
    (src/ArtemisBanking.Application/Common/Result.cs). */
module Results {
  import opened Common

  /** `Result`: a success flag and, on failure, the error text. */
  datatype Result = Result(succeeded: bool, error: Option<string>)

  /** `Result<T>`: the same, plus the payload; `None` stands for the
      `default!` value a failure carries. */
  datatype ResultOf<T> = ResultOf(succeeded: bool, error: Option<string>, data: Option<T>)

  function Success(): (r: Result)
    ensures r.succeeded && r.error == None
  {
    Result(true, None)
  }

  function Failure(e: string): (r: Result)
    ensures !r.succeeded && r.error == Some(e)
  {
    Result(false, Some(e))
  }

  function SuccessOf<T>(d: T): (r: ResultOf<T>)
    ensures r.succeeded && r.error == None && r.data == Some(d)
  {
    ResultOf(true, None, Some(d))
  }

  function FailureOf<T>(e: string): (r: ResultOf<T>)
    ensures !r.succeeded && r.error == Some(e) && r.data == None
  {
    ResultOf(false, Some(e), None)
  }

  /** Every result built by the factories carries an error exactly when it
      failed, and a typed result carries data exactly when it succeeded. */
  predicate WellFormed(r: Result)
  {
    r.succeeded <==> r.error.None?
  }

  predicate WellFormedOf<T>(r: ResultOf<T>)
  {
    (r.succeeded <==> r.error.None?) && (r.succeeded <==> r.data.Some?)
  }

  lemma FactoriesWellFormed<T>(e: string, d: T)
    ensures WellFormed(Success()) && WellFormed(Failure(e))
    ensures WellFormedOf(SuccessOf(d)) && WellFormedOf(FailureOf<T>(e))
    ensures Failure(e) != Success()
  {
  }
}
