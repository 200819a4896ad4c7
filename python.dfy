/** The failure modes of the modelled Python code: each error of the model names the
    exception class the original raises at that point. */
module Python {

  datatype Option<+T> = None | Some(value: T)

  /** Exception classes raised by the pipeline (BandNotFound stands for the raster
      library's error on an unknown band name). */
  datatype Error =
    | IOError
    | ImportError
    | TypeError
    | IndexError
    | KeyError
    | ValueError
    | NameError
    | AttributeError
    | ZeroDivisionError
    | BandNotFound

  datatype Result<+T> = Success(value: T) | Failure(error: Error) {
    predicate IsFailure() { Failure? }

    function PropagateFailure<U>(): Result<U>
      requires Failure?
    {
      Failure(error)
    }

    function Extract(): T
      requires Success?
    {
      value
    }
  }

  /** Python truthiness of an optional string argument: None and "" are falsy. */
  predicate Truthy(s: Option<string>) {
    s.Some? && s.value != ""
  }

  /** `re.match(prefix, s)` for a literal prefix: the match is anchored at the start. */
  predicate StartsWith(s: string, prefix: string) {
    |prefix| <= |s| && s[..|prefix|] == prefix
  }

  function Min(a: int, b: int): int {
    if a <= b then a else b
  }

  /** A list is its front followed by its last element. */
  lemma FrontLast<T>(s: seq<T>)
    requires s != []
    ensures s[..|s| - 1] + [s[|s| - 1]] == s
  {
  }

  /** The calls `np.vectorize(f)(xs)` makes when no `otypes` are given: f is first
      called on the first element to find the output type and then on every element,
      so the first element is processed twice; an empty input raises ValueError. */
  function VectorizedCalls<T>(xs: seq<T>): (r: Result<seq<T>>)
    ensures r.Success? <==> xs != []
    ensures r.Failure? ==> r.error == ValueError
    ensures r.Success? ==> |r.value| == |xs| + 1 && r.value[0] == r.value[1] && r.value[1..] == xs
  {
    if xs == [] then Failure(ValueError) else Success([xs[0]] + xs)
  }
}
