/**
 A `for` loop whose body either yields a value or raises: the values are
 collected in order and the first raise ends the loop.
 */
module Loop {
  import opened Wrappers

  function Collect<X, P, E>(xs: seq<X>, step: X --> Result<P, E>): (r: Result<seq<P>, E>)
    requires forall i :: 0 <= i < |xs| ==> step.requires(xs[i])
    ensures r.Success? <==> forall i :: 0 <= i < |xs| ==> step(xs[i]).Success?
    ensures r.Success? ==> |r.value| == |xs| && forall i :: 0 <= i < |xs| ==> step(xs[i]) == Success(r.value[i])
    ensures r.Failure? ==>
              exists i :: 0 <= i < |xs| && step(xs[i]) == Failure(r.error) &&
                forall k :: 0 <= k < i ==> step(xs[k]).Success?
    decreases |xs|
  {
    if |xs| == 0 then Success([])
    else
      match step(xs[0])
      case Failure(e) => Failure(e)
      case Success(p) =>
        var rest := Collect(xs[1..], step);
        assert forall i :: 1 <= i < |xs| ==> xs[i] == xs[1..][i - 1];
        match rest
        case Failure(e) =>
          assert exists i :: 0 <= i < |xs| && step(xs[i]) == Failure(e) &&
                   forall k :: 0 <= k < i ==> step(xs[k]).Success? by {
            var i :| 0 <= i < |xs| - 1 && step(xs[1..][i]) == Failure(e) &&
                     forall k :: 0 <= k < i ==> step(xs[1..][k]).Success?;
            assert step(xs[i + 1]) == Failure(e);
          }
          Failure(e)
        case Success(ps) =>
          var all := [p] + ps;
          assert forall i :: 1 <= i < |xs| ==> all[i] == ps[i - 1];
          Success(all)
  }
}
