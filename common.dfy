/** Shared vocabulary: agent identifiers, the error-carrying result type and
    two small helpers over sequences. */
module Common {

  /** Graph node identifiers. The simulator accepts any hashable node label;
      the model fixes them to integers. */
  type AgentId = int

  /** Either a value or the exception the Python code would raise. */
  datatype Result<+T, +E> = Success(value: T) | Failure(error: E)

  /** `set(s)` in Python: the elements of a list, order and repetition dropped. */
  function Elems<T>(s: seq<T>): set<T>
  {
    set x | x in s
  }

  predicate NoDuplicates<T(==)>(s: seq<T>)
  {
    forall i, j :: 0 <= i < j < |s| ==> s[i] != s[j]
  }
}
