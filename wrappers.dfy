/** Failure-compatible wrappers used throughout the model. Go's `(value, error)` pairs
    become `Result`, and Go's nil pointers become `Option`. Errors carry the text that
    `err.Error()` would return. */
module Wrappers {

  datatype Option<+T> = None | Some(value: T) {
    predicate IsFailure() { None? }

    function PropagateFailure<U>(): Option<U>
      requires None?
    {
      None
    }

    function Extract(): T
      requires Some?
    {
      value
    }

    function GetOr(default: T): T {
      match this
      case Some(v) => v
      case None => default
    }
  }

  datatype Result<+T> = Ok(value: T) | Err(error: string) {
    predicate IsFailure() { Err? }

    function PropagateFailure<U>(): Result<U>
      requires Err?
    {
      Err(error)
    }

    function Extract(): T
      requires Ok?
    {
      value
    }
  }

  /** A Go function that returns only an `error`. */
  datatype Outcome = Pass | Fail(error: string) {
    predicate IsFailure() { Fail? }

    function PropagateFailure(): Outcome
      requires Fail?
    {
      this
    }
  }

  /** Applies `f` to every element in order and collects the results; the first failure
      ends the traversal and is the outcome (the `for … { r, err := f(x); if err != nil
      { return nil, err } }` pattern). */
  function MapResult<A, B>(f: A -> Result<B>, xs: seq<A>): Result<seq<B>>
    decreases |xs|
  {
    if xs == [] then Ok([])
    else
      var h :- f(xs[0]);
      var t :- MapResult(f, xs[1..]);
      Ok([h] + t)
  }

  /** When every element succeeds, the outcome is the list of results, index by index. */
  lemma {:induction false} MapResultAllOk<A, B>(f: A -> Result<B>, xs: seq<A>, ys: seq<B>)
    requires |ys| == |xs|
    requires forall i | 0 <= i < |xs| :: f(xs[i]) == Ok(ys[i])
    ensures MapResult(f, xs) == Ok(ys)
    decreases |xs|
  {
    if xs != [] {
      assert f(xs[0]) == Ok(ys[0]);
      assert forall i | 0 <= i < |xs[1..]| :: f(xs[1..][i]) == Ok(ys[1..][i]) by {
        forall i | 0 <= i < |xs[1..]| ensures f(xs[1..][i]) == Ok(ys[1..][i]) {
          assert xs[1..][i] == xs[i + 1] && ys[1..][i] == ys[i + 1];
        }
      }
      MapResultAllOk(f, xs[1..], ys[1..]);
      assert [ys[0]] + ys[1..] == ys;
    }
  }

  /** When the elements before `k` succeed and element `k` fails, the outcome is the
      failure of element `k`. */
  lemma {:induction false} MapResultFirstErr<A, B>(f: A -> Result<B>, xs: seq<A>, k: nat)
    requires k < |xs|
    requires forall i | 0 <= i < k :: f(xs[i]).Ok?
    requires f(xs[k]).Err?
    ensures MapResult(f, xs) == Err(f(xs[k]).error)
    decreases k
  {
    if k > 0 {
      assert f(xs[0]).Ok?;
      assert forall i | 0 <= i < k - 1 :: f(xs[1..][i]).Ok? by {
        forall i | 0 <= i < k - 1 ensures f(xs[1..][i]).Ok? {
          assert xs[1..][i] == xs[i + 1];
        }
      }
      assert xs[1..][k - 1] == xs[k];
      MapResultFirstErr(f, xs[1..], k - 1);
    }
  }

  /** The traversal succeeds exactly when every element does; its results are then
      aligned with the inputs, and a failure is that of the first failing element. */
  lemma {:induction false} MapResultAt<A, B>(f: A -> Result<B>, xs: seq<A>)
    ensures MapResult(f, xs).Ok? <==> forall i | 0 <= i < |xs| :: f(xs[i]).Ok?
    ensures MapResult(f, xs).Ok? ==>
              |MapResult(f, xs).value| == |xs| &&
              forall i | 0 <= i < |xs| :: MapResult(f, xs).value[i] == f(xs[i]).value
    ensures MapResult(f, xs).Err? ==>
              exists k | 0 <= k < |xs| :: f(xs[k]).Err? && MapResult(f, xs).error == f(xs[k]).error &&
                                         forall i | 0 <= i < k :: f(xs[i]).Ok?
  {
    if forall i | 0 <= i < |xs| :: f(xs[i]).Ok? {
      var ys := seq(|xs|, i requires 0 <= i < |xs| => f(xs[i]).value);
      MapResultAllOk(f, xs, ys);
    } else {
      var k :| 0 <= k < |xs| && f(xs[k]).Err?;
      while exists j | 0 <= j < k :: f(xs[j]).Err?
        invariant 0 <= k < |xs| && f(xs[k]).Err?
        decreases k
      {
        var j :| 0 <= j < k && f(xs[j]).Err?;
        k := j;
      }
      MapResultFirstErr(f, xs, k);
    }
  }

  /** Traversing a concatenation succeeds exactly when traversing both halves does, and
      then yields the concatenation of the two outcomes. */
  lemma {:induction false} MapResultAppend<A, B>(f: A -> Result<B>, a: seq<A>, b: seq<A>)
    ensures MapResult(f, a + b).Ok? <==> MapResult(f, a).Ok? && MapResult(f, b).Ok?
    ensures MapResult(f, a + b).Ok? ==> MapResult(f, a + b).value == MapResult(f, a).value + MapResult(f, b).value
    decreases |a|
  {
    if a == [] {
      assert a + b == b;
    } else {
      assert (a + b)[0] == a[0] && (a + b)[1..] == a[1..] + b;
      MapResultAppend(f, a[1..], b);
      if f(a[0]).Ok? && MapResult(f, a + b).Ok? {
        var h, t1, t2 := f(a[0]).value, MapResult(f, a[1..]).value, MapResult(f, b).value;
        assert [h] + (t1 + t2) == ([h] + t1) + t2;
      }
    }
  }
}
