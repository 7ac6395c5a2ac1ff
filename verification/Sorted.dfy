/** Insertion into a list kept in ascending order of a key, as the job and delegation queues do it. */
module Sorted {

  ghost predicate Ordered<T>(q: seq<T>, key: T -> nat) {
    forall i, j :: 0 <= i < j < |q| ==> key(q[i]) <= key(q[j])
  }

  /** Before the first entry with a strictly larger key, else at the end. */
  function Insert<T>(q: seq<T>, x: T, key: T -> nat): seq<T> {
    if q == [] then [x]
    else if key(x) < key(q[0]) then [x] + q
    else [q[0]] + Insert(q[1..], x, key)
  }

  lemma {:induction false} InsertMembers<T(!new)>(q: seq<T>, x: T, key: T -> nat)
    ensures multiset(Insert(q, x, key)) == multiset(q) + multiset{x}
    ensures |Insert(q, x, key)| == |q| + 1
    ensures forall y :: y in Insert(q, x, key) <==> y in q || y == x
  {
    if q != [] && key(q[0]) <= key(x) {
      InsertMembers(q[1..], x, key);
      assert q == [q[0]] + q[1..];
    }
  }

  lemma TailOrdered<T>(q: seq<T>, key: T -> nat)
    requires q != [] && Ordered(q, key)
    ensures Ordered(q[1..], key)
    ensures forall j :: 0 <= j < |q| ==> key(q[0]) <= key(q[j])
  {
  }

  /** The new entry goes behind everything with a key no larger and before everything larger, and the
      old entries keep their order. */
  lemma {:induction false} InsertPlace<T>(q: seq<T>, x: T, key: T -> nat) returns (i: nat)
    requires Ordered(q, key)
    ensures i <= |q| && Insert(q, x, key) == q[..i] + [x] + q[i..]
    ensures forall j :: 0 <= j < i ==> key(q[j]) <= key(x)
    ensures forall j :: i <= j < |q| ==> key(x) < key(q[j])
  {
    hide Ordered;
    i := 0;
    if q == [] {
    } else {
      TailOrdered(q, key);
      if key(q[0]) <= key(x) {
        var k := InsertPlace(q[1..], x, key);
        i := k + 1;
        assert q[..i] == [q[0]] + q[1..][..k];
        assert q[i..] == q[1..][k..];
        forall j | i <= j < |q| ensures key(x) < key(q[j]) {
          assert q[1..][j - 1] == q[j];
        }
        forall j | 0 <= j < i ensures key(q[j]) <= key(x) {
          assert j > 0 ==> q[1..][j - 1] == q[j];
        }
      }
    }
  }

  lemma InsertOrdered<T>(q: seq<T>, x: T, key: T -> nat)
    requires Ordered(q, key)
    ensures Ordered(Insert(q, x, key), key)
  {
    var i := InsertPlace(q, x, key);
    var r := q[..i] + [x] + q[i..];
    forall a, b | 0 <= a < b < |r| ensures key(r[a]) <= key(r[b]) {
      assert a != i ==> r[a] == q[if a < i then a else a - 1];
      assert b != i ==> r[b] == q[if b < i then b else b - 1];
    }
  }
}
