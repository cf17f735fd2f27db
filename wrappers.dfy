/** Option and Result, with the Python exceptions the modelled code can raise
    as the failure values. */
module Wrappers {

  datatype Option<+T> = None | Some(value: T)

  /** The exception classes that the parsing and aggregation code raises. */
  datatype Failure = IndexError | KeyError | ValueError | TypeError | ZeroDivisionError

  datatype Result<+T> = Ok(value: T) | Err(error: Failure)

  /** The outcome of a Python method that returns None or raises. */
  datatype Outcome = Done | Raised(error: Failure)

  /** True when every element of `rs` is a success. */
  predicate AllOk<T>(rs: seq<Result<T>>)
  {
    forall i :: 0 <= i < |rs| ==> rs[i].Ok?
  }

  /** Index of the first failure of `rs`, or |rs| if there is none. */
  function FirstErr<T>(rs: seq<Result<T>>): (k: nat)
    ensures k <= |rs|
    ensures forall i :: 0 <= i < k ==> rs[i].Ok?
    ensures k < |rs| ==> rs[k].Err?
    decreases |rs|
  {
    if rs == [] then 0
    else if rs[0].Err? then 0
    else 1 + FirstErr(rs[1..])
  }

  /** Runs the computations `rs` in order, as a Python loop that appends each
      result to a list and lets the first exception escape. */
  function Collect<T>(rs: seq<Result<T>>): (r: Result<seq<T>>)
    ensures r.Ok? <==> AllOk(rs)
    ensures r.Ok? ==> |r.value| == |rs| && forall i :: 0 <= i < |rs| ==> r.value[i] == rs[i].value
    ensures r.Err? ==> r.error == rs[FirstErr(rs)].error
    decreases |rs|
  {
    if rs == [] then Ok([])
    else if rs[0].Err? then Err(rs[0].error)
    else
      match Collect(rs[1..])
      case Err(e) => Err(e)
      case Ok(vs) => Ok([rs[0].value] + vs)
  }

  /** Collecting one more computation: its value is appended, or its
      failure is the failure of the whole. */
  lemma CollectOneMore<T>(rs: seq<Result<T>>, i: nat)
    requires i < |rs| && Collect(rs[..i]).Ok?
    ensures Collect(rs[..i + 1]) == if rs[i].Ok? then Ok(Collect(rs[..i]).value + [rs[i].value]) else Err(rs[i].error)
  {
    var pre, post := rs[..i], rs[..i + 1];
    assert forall k :: 0 <= k < i ==> post[k] == pre[k];
    if rs[i].Ok? {
      var r := Collect(post);
      assert AllOk(post);
      assert r.value == Collect(pre).value + [rs[i].value];
    } else {
      assert FirstErr(post) == i;
    }
  }

  /** A failure stops the collection: the rest is never looked at. */
  lemma {:induction false} CollectStopsAt<T>(rs: seq<Result<T>>, i: nat)
    requires i < |rs| && Collect(rs[..i]).Ok? && rs[i].Err?
    ensures Collect(rs) == Err(rs[i].error)
  {
    var pre := rs[..i];
    assert forall k :: 0 <= k < i ==> rs[k] == pre[k];
    assert FirstErr(rs) == i;
  }
}
