/** Failure-carrying values shared by every module of the model. */
module Wrappers {

  /** A value that may be absent: JavaScript's `undefined`, Python's missing key. */
  datatype Option<+T> = None | Some(value: T) {
    function GetOr(default: T): T {
      match this
      case Some(v) => v
      case None => default
    }
  }

  /** The outcome of an operation that can throw: `Err` carries what was thrown. */
  datatype Result<+T, +E> = Ok(value: T) | Err(error: E)

  /**
   * The values of a list of outcomes in order, or the error of the first
   * that failed: a loop that pushes each value and stops at the first throw.
   */
  function AllOk<T, E>(rs: seq<Result<T, E>>): (r: Result<seq<T>, E>)
    ensures r.Ok? ==> |r.value| == |rs|
    decreases |rs|
  {
    if |rs| == 0 then Ok([])
    else
      match AllOk(rs[..|rs| - 1])
      case Err(e) => Err(e)
      case Ok(vs) =>
        match rs[|rs| - 1]
        case Err(e) => Err(e)
        case Ok(v) => Ok(vs + [v])
  }

  /** One more turn of that loop. */
  lemma AllOkStep<T, E>(rs: seq<Result<T, E>>, k: nat)
    requires k < |rs|
    ensures AllOk(rs[..k + 1]) ==
      match AllOk(rs[..k])
      case Err(e) => Err(e)
      case Ok(vs) =>
        match rs[k]
        case Err(e) => Err(e)
        case Ok(v) => Ok(vs + [v])
  {
    assert rs[..k + 1][..k] == rs[..k];
  }

  /** Once a prefix has failed, the whole list fails with the same error. */
  lemma {:induction false} AllOkErrStays<T, E>(rs: seq<Result<T, E>>, n: nat, e: E)
    requires n <= |rs| && AllOk(rs[..n]) == Err(e)
    ensures AllOk(rs) == Err(e)
    decreases |rs| - n
  {
    if n < |rs| {
      AllOkStep(rs, n);
      AllOkErrStays(rs, n + 1, e);
    } else {
      assert rs[..n] == rs;
    }
  }

  /** The list succeeds exactly when every outcome does, and then holds their values in order. */
  lemma {:induction false} AllOkSpec<T, E>(rs: seq<Result<T, E>>)
    ensures AllOk(rs).Ok? <==> forall i :: 0 <= i < |rs| ==> rs[i].Ok?
    ensures AllOk(rs).Ok? ==> forall i :: 0 <= i < |rs| ==> rs[i] == Ok(AllOk(rs).value[i])
    decreases |rs|
  {
    if |rs| > 0 {
      var init := rs[..|rs| - 1];
      AllOkSpec(init);
      assert forall i :: 0 <= i < |init| ==> init[i] == rs[i];
    }
  }
}
