/** The optional value and the file-system call outcomes shared by the models. */
module Wrappers {
  datatype Option<+T> = None | Some(value: T)

  /** SHA-256 taken as an injective function: two digests agree exactly when their inputs do. */
  datatype Digest<+T> = Sha256(of: T)

  /** The result of code that may throw, or whose process may die in the middle. */
  datatype Flow<+T> = Return(value: T) | Throw | Die {
    predicate IsFailure() { !Return? }
    function PropagateFailure<U>(): Flow<U>
      requires IsFailure()
    {
      if Throw? then Throw else Die
    }
    function Extract(): T
      requires Return?
    {
      value
    }
  }

  /** The fate of a system call: done, failed without effect, failed after its effect, or never returned from. */
  datatype Fault = Fine | Fail | Late | Crash

  lemma SubsetSize<T>(a: set<T>, b: set<T>)
    requires a <= b
    ensures |a| <= |b|
  {
    if a != b {
      assert b == a + (b - a);
    }
  }
}
