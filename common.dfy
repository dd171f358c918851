/** Values shared by the two clusterer base classes. */
module Common {

  datatype Option<T> = None | Some(value: T)

  /** A call that either returns a value or throws the exception it carries. */
  datatype Result<T, E> = Success(value: T) | Failure(error: E)

  /**
   * A separability metric (a distance or a similarity). The model knows a
   * metric only by its name and by whether it is a kernel; evaluating one is
   * left to function-typed parameters of the operations that need it.
   */
  datatype Metric = Metric(name: string, isKernel: bool)

  /** The Euclidean distance, the library's default metric. */
  const Euclidean: Metric := Metric("EUCLIDEAN", false)

  /** A double as it can occur in an input matrix: NaN, or a number. */
  datatype Cell = NaN | Val(x: real)

  /** `rows` is a rectangular matrix with `cols` columns. */
  predicate IsMatrix<T>(rows: seq<seq<T>>, cols: nat) {
    forall i :: 0 <= i < |rows| ==> |rows[i]| == cols
  }
}
