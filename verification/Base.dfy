/** Small vocabulary shared by the two machines: optional values and Go channels that are
    only ever closed. */
module Base {

  datatype Option<+T> = None | Some(value: T)

  /** A channel used purely as a broadcast: closing it twice panics the program. */
  datatype Chan = Open | Closed | Panicked

  function Close(ch: Chan): Chan {
    if ch.Open? then Closed else Panicked
  }

  /** Total weight of a sequence, the building block of termination measures. */
  function Sum<T>(weight: T -> nat, xs: seq<T>): nat {
    if xs == [] then 0 else Sum(weight, xs[..|xs| - 1]) + weight(xs[|xs| - 1])
  }

  lemma SumAppend<T>(weight: T -> nat, xs: seq<T>, x: T)
    ensures Sum(weight, xs + [x]) == Sum(weight, xs) + weight(x)
  {
    assert (xs + [x])[..|xs|] == xs;
  }

  lemma {:induction false} SumUpdate<T>(weight: T -> nat, xs: seq<T>, i: nat, x: T)
    requires i < |xs|
    ensures Sum(weight, xs[i := x]) == Sum(weight, xs) - weight(xs[i]) + weight(x)
  {
    var n := |xs| - 1;
    if i == n {
      assert xs[i := x][..n] == xs[..n];
    } else {
      assert xs[i := x][..n] == xs[..n][i := x];
      SumUpdate(weight, xs[..n], i, x);
    }
  }
}
