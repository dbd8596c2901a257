/** Failure-compatible results shared by every module. */
module Common {

  datatype Option<+T> = None | Some(value: T)

  datatype Result<+T, +E> = Ok(value: T) | Err(error: E) {
    predicate IsFailure() {
      Err?
    }

    function PropagateFailure<U>(): Result<U, E>
      requires Err?
    {
      Err(error)
    }

    function Extract(): T
      requires Ok?
    {
      value
    }

    /** Forgets the value, keeps the error. */
    function Then(): Result<(), E> {
      match this
      case Ok(_) => Ok(())
      case Err(e) => Err(e)
    }
  }

  datatype Check<+E> = Pass | Fail(error: E) {
    predicate IsFailure() {
      Fail?
    }

    function PropagateFailure<U>(): Result<U, E>
      requires Fail?
    {
      Err(error)
    }
  }

  /** A thrown error as a value: `:- Need(condition, error)`. */
  function Need<E>(condition: bool, error: E): Check<E> {
    if condition then Pass else Fail(error)
  }

  // ------------------------------------------------------------------- sequences

  predicate Distinct<T(==)>(xs: seq<T>) {
    forall i, j :: 0 <= i < j < |xs| ==> xs[i] != xs[j]
  }

  function Elements<T>(xs: seq<T>): set<T> {
    set x | x in xs
  }

  /** `new Set(xs).size === xs.length` tests for duplicates. */
  lemma {:induction false} SetSize<T>(xs: seq<T>)
    ensures |Elements(xs)| <= |xs|
    ensures |Elements(xs)| == |xs| <==> Distinct(xs)
    decreases |xs|
  {
    if |xs| == 0 {
      assert Elements(xs) == {};
    } else {
      var n := |xs| - 1;
      var front := xs[..n];
      SetSize(front);
      assert xs == front + [xs[n]];
      assert Elements(xs) == Elements(front) + {xs[n]};
      if xs[n] in front {
        var i :| 0 <= i < n && front[i] == xs[n];
        assert xs[i] == xs[n];
        assert Elements(xs) == Elements(front);
      } else {
        DistinctFront(xs, n);
      }
    }
  }

  lemma DistinctFront<T>(xs: seq<T>, n: nat)
    requires n + 1 == |xs| && xs[n] !in xs[..n]
    ensures Distinct(xs) <==> Distinct(xs[..n])
  {
    var front := xs[..n];
    assert forall i :: 0 <= i < n ==> front[i] == xs[i] && xs[i] in front;
  }
}
