/**
 * Raised exceptions as values, and Ruby's `map` over a block that may raise.
 */
module Results {

  /** The exceptions the modelled code raises or lets through. */
  datatype Error =
    | ArgumentError(message: string)
    | NoMethodError(name: string)
    | TypeError(message: string)
    | NameError(name: string)
    | Raised(message: string)   // anything a collaborator raises

  datatype Result<+T> = Success(value: T) | Failure(error: Error)

  datatype Outcome = Pass | Fail(error: Error)

  /**
   * `xs.map { |x| f(x) }`: applies `f` to each element in order; the first
   * element whose block raises stops the walk and its error is raised.
   */
  function MapAll<A, B>(f: A -> Result<B>, xs: seq<A>): (r: Result<seq<B>>)
    ensures r.Success? <==> forall i :: 0 <= i < |xs| ==> f(xs[i]).Success?
    ensures r.Success? ==>
      |r.value| == |xs| && forall i :: 0 <= i < |xs| ==> r.value[i] == f(xs[i]).value
    ensures r.Failure? ==>
      exists i :: 0 <= i < |xs| && f(xs[i]) == Failure(r.error) &&
        forall j :: 0 <= j < i ==> f(xs[j]).Success?
  {
    if xs == [] then Success([])
    else
      match f(xs[0])
      case Failure(e) => Failure(e)
      case Success(y) =>
        match MapAll(f, xs[1..])
        case Failure(e) =>
          assert forall j :: 1 <= j < |xs| ==> f(xs[j]) == f(xs[1..][j - 1]);
          Failure(e)
        case Success(ys) => Success([y] + ys)
  }
}
