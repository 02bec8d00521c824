// Small vocabulary shared by all components.
module Common {
  datatype Option<+T> = None | Some(value: T)

  // The elements of q that are different from x, in order.
  function Without<T(==,!new)>(q: seq<T>, x: T): (r: seq<T>)
    ensures forall y :: y in r <==> y in q && y != x
    ensures forall i :: 0 <= i < |r| ==> r[i] in q && r[i] != x
  {
    if q == [] then []
    else if q[0] == x then Without(q[1..], x)
    else [q[0]] + Without(q[1..], x)
  }

  function Reverse<T(!new)>(q: seq<T>): (r: seq<T>)
    ensures |r| == |q|
    ensures forall y :: y in r <==> y in q
    ensures forall i :: 0 <= i < |r| ==> r[i] in q
  {
    if q == [] then [] else Reverse(q[1..]) + [q[0]]
  }

  ghost predicate NoDuplicates<T>(q: seq<T>) {
    forall i, j :: 0 <= i < j < |q| ==> q[i] != q[j]
  }
}
