/** Optional values (SQL NULL, Python None) and error-carrying results (exceptions). */
module Wrappers {

  datatype Option<+T> = None | Some(value: T)

  datatype Result<+R, +E> = Ok(value: R) | Err(error: E)

  /** The position of the first failure in a list of results, or its length when none fails:
      how far a list comprehension gets before the first exception. */
  function FirstError<R, E>(rs: seq<Result<R, E>>): (k: nat)
    ensures k <= |rs|
    ensures forall j :: 0 <= j < k ==> rs[j].Ok?
    ensures k < |rs| ==> rs[k].Err?
  {
    if rs == [] || rs[0].Err? then 0
    else
      var rest := FirstError(rs[1..]);
      assert forall j :: 1 <= j <= rest ==> rs[j] == rs[1..][j - 1];
      1 + rest
  }

  /** A list comprehension whose element expression may raise: every value when each
      element succeeds, otherwise the first failure. */
  function AllOk<R, E>(rs: seq<Result<R, E>>): (r: Result<seq<R>, E>)
    ensures r.Ok? <==> forall i :: 0 <= i < |rs| ==> rs[i].Ok?
    ensures r.Ok? ==> |r.value| == |rs| && forall i :: 0 <= i < |rs| ==> rs[i] == Ok(r.value[i])
    ensures r.Err? ==> FirstError(rs) < |rs| && rs[FirstError(rs)] == Err(r.error)
  {
    var k := FirstError(rs);
    if k < |rs| then Err(rs[k].error)
    else Ok(seq(|rs|, i requires 0 <= i < |rs| => rs[i].value))
  }
}
