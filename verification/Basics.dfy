/** Small shared vocabulary: optional values, results, time, and two facts about finite sets. */
module Basics {

  datatype Option<+T> = None | Some(value: T)

  /** `Err` stands for the Python exceptions a caller can see. */
  datatype Result<+T> = Ok(value: T) | Err

  /** Instants and durations are whole microseconds, the resolution of Python's datetime. */
  type Time = int

  const SECOND: Time := 1_000_000

  predicate NoDuplicates<T(==)>(s: seq<T>) {
    forall i, j :: 0 <= i < j < |s| ==> s[i] != s[j]
  }

  /** A proper choice of rows from a table: the order in which a query returns them is not fixed. */
  method Enumerate<T(==)>(s: set<T>) returns (q: seq<T>)
    ensures NoDuplicates(q)
    ensures forall x :: x in q <==> x in s
  {
    q := [];
    var rest := s;
    while rest != {}
      invariant NoDuplicates(q)
      invariant rest <= s
      invariant forall x :: x in q <==> x in s - rest
      decreases rest
    {
      var x :| x in rest;
      assert x !in q;
      q, rest := q + [x], rest - {x};
    }
  }

  function Min(a: int, b: int): int {
    if a <= b then a else b
  }

  /** The number of elements of a duplicate-free enumeration. */
  lemma {:induction false} EnumerationSize<T>(q: seq<T>, s: set<T>)
    requires NoDuplicates(q)
    requires forall x :: x in q <==> x in s
    ensures |q| == |s|
  {
    if q == [] {
      assert s == {};
    } else {
      var x, rest := q[0], q[1..];
      assert q == [x] + rest;
      assert x !in rest;
      EnumerationSize(rest, s - {x});
    }
  }
}
