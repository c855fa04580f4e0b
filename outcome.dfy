/** Results of the solvers. Every `unwrap`, `expect` and `panic!` of the source
    aborts the whole computation; the model returns `Panic` instead. */
module Outcome {

  datatype Option<+T> = None | Some(value: T)

  /** A solver either finishes with a value or panics. */
  datatype Result<+T> = Ok(value: T) | Panic

  /** The values of a sequence of steps that each may panic, run in order:
      the first panic aborts the whole. */
  function AllOk<T>(rs: seq<Result<T>>): (r: Result<seq<T>>)
    ensures r.Ok? <==> forall i :: 0 <= i < |rs| ==> rs[i].Ok?
    ensures r.Ok? ==> |r.value| == |rs| && forall i :: 0 <= i < |rs| ==> rs[i] == Ok(r.value[i])
  {
    if rs == [] then Ok([])
    else
      var rest := AllOk(rs[1..]);
      assert forall i :: 1 <= i < |rs| ==> rs[i] == rs[1..][i - 1];
      if rs[0].Ok? && rest.Ok? then Ok([rs[0].value] + rest.value) else Panic
  }

  /** A loop that pushes each value in turn and stops at the first
      failure, as `unwrap` inside a `for` loop does. */
  method CollectOk<T>(rs: seq<Result<T>>) returns (r: Result<seq<T>>)
    ensures r == AllOk(rs)
  {
    var vs: seq<T> := [];
    var k := 0;
    while k < |rs|
      invariant 0 <= k <= |rs|
      invariant AllOk(rs[..k]) == Ok(vs)
    {
      if rs[k].Panic? {
        AllOkPanics(rs, k);
        return Panic;
      }
      AllOkPush(rs[..k], vs, rs[k].value);
      assert rs[..k + 1] == rs[..k] + [Ok(rs[k].value)];
      vs := vs + [rs[k].value];
      k := k + 1;
    }
    assert rs[..k] == rs;
    r := Ok(vs);
  }

  lemma AllOkPanics<T>(rs: seq<Result<T>>, k: nat)
    requires k < |rs| && rs[k].Panic?
    ensures AllOk(rs).Panic?
  {
  }

  /** Steps that all succeed give their values. */
  lemma AllOkOf<T>(rs: seq<Result<T>>, vs: seq<T>)
    requires |rs| == |vs| && forall i :: 0 <= i < |rs| ==> rs[i] == Ok(vs[i])
    ensures AllOk(rs) == Ok(vs)
  {
    var r := AllOk(rs);
    assert r.Ok?;
    assert forall i :: 0 <= i < |rs| ==> r.value[i] == vs[i];
    assert r.value == vs;
  }

  /** One more success pushes its value. */
  lemma AllOkPush<T>(rs: seq<Result<T>>, vs: seq<T>, v: T)
    requires AllOk(rs) == Ok(vs)
    ensures AllOk(rs + [Ok(v)]) == Ok(vs + [v])
  {
    var next := rs + [Ok(v)];
    assert forall i :: 0 <= i < |rs| ==> next[i] == rs[i];
    assert AllOk(next).value == vs + [v];
  }
}
