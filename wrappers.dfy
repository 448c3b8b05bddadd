/** Optional values and results with an error, as used throughout the model in place of Java's
    `null` and thrown exceptions. */
module Wrappers {

  /** A value that may be absent (a Java reference that may be `null`). */
  datatype Option<+T> = None | Some(value: T)

  /** The outcome of a Java call that either returns a value or throws. */
  datatype Result<+T, +E> = Ok(value: T) | Err(error: E)

  /** Evaluates the calls whose outcomes are `rs` from left to right, as a Java loop that adds each
      result to a list does: the list of all values if no call failed, otherwise the first error. */
  function Collect<T, E>(rs: seq<Result<T, E>>): (r: Result<seq<T>, E>)
    ensures r.Ok? <==> forall i :: 0 <= i < |rs| ==> rs[i].Ok?
    ensures r.Ok? ==> |r.value| == |rs| && forall i :: 0 <= i < |rs| ==> r.value[i] == rs[i].value
    ensures r.Err? ==> exists k :: 0 <= k < |rs| && rs[k] == Err(r.error) && forall j :: 0 <= j < k ==> rs[j].Ok?
  {
    if rs == [] then Ok([])
    else match rs[0]
      case Err(e) => Err(e)
      case Ok(x) =>
        match Collect(rs[1..])
        case Err(e) => Err(e)
        case Ok(xs) => Ok([x] + xs)
  }

  /** The first failing call decides the error: `Collect` reports exactly the error of the first
      `Err` in `rs`. */
  lemma FirstErrorWins<T, E>(rs: seq<Result<T, E>>, k: nat)
    requires k < |rs| && rs[k].Err?
    requires forall j :: 0 <= j < k ==> rs[j].Ok?
    ensures Collect(rs) == Err(rs[k].error)
  {
    var r := Collect(rs);
    assert r.Err?;
    var k' :| 0 <= k' < |rs| && rs[k'] == Err(r.error) && forall j :: 0 <= j < k' ==> rs[j].Ok?;
    assert k' == k;
  }

  /** When no call failed, `Collect` gives exactly their values, in order. */
  lemma AllOkCollects<T, E>(rs: seq<Result<T, E>>, xs: seq<T>)
    requires |xs| == |rs|
    requires forall j :: 0 <= j < |rs| ==> rs[j] == Ok(xs[j])
    ensures Collect(rs) == Ok(xs)
  {
    assert forall j :: 0 <= j < |rs| ==> rs[j].Ok?;
    var r := Collect(rs);
    assert r.Ok? && |r.value| == |xs|;
    assert forall j :: 0 <= j < |xs| ==> r.value[j] == xs[j];
    assert r.value == xs;
  }
}
