/** Python iterates a `set` in an order the language leaves open. Where the
    client turns a set into a list by iterating it, the model takes that
    order as a parameter that lists the set's elements once each. */
module Sets {
  /** Whether `order` lists the elements of `s`, each exactly once. */
  ghost predicate Enumerates<T(!new)>(order: seq<T>, s: set<T>) {
    (forall x :: x in order <==> x in s) &&
    forall i, j :: 0 <= i < j < |order| ==> order[i] != order[j]
  }

  /** A list naming each element of a set once is as long as the set. */
  lemma {:induction false} EnumerationLength<T(!new)>(order: seq<T>, s: set<T>)
    requires Enumerates(order, s)
    ensures |order| == |s|
    decreases |order|
  {
    if order != [] {
      var x := order[|order| - 1];
      var init := order[..|order| - 1];
      assert x !in init by {
        forall i | 0 <= i < |init| ensures init[i] != x {
          assert init[i] == order[i];
        }
      }
      assert forall y :: y in init <==> y in s - {x} by {
        forall y | y in s - {x} ensures y in init {
          var i :| 0 <= i < |order| && order[i] == y;
          assert i < |init| && init[i] == y;
        }
      }
      EnumerationLength(init, s - {x});
    } else {
      assert forall y :: y !in s;
    }
  }
}
