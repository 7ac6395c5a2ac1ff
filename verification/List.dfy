/** The intrusive circular doubly linked list: pointer operations that refine operations on
    sequences. The first node of a ring is its list head. */
module List {
  import opened Sorted

  /** A link together with the key of the job it is embedded in. */
  class Node {
    const key: nat
    var next: Node?
    var prev: Node?

    constructor (key: nat)
      ensures this.key == key && next == null && prev == null
    {
      this.key, next, prev := key, null, null;
    }
  }

  function KeyOf(n: Node): nat { n.key }

  predicate Linked(a: Node, b: Node)
    reads a, b
  {
    a.next == b && b.prev == a
  }

  predicate Distinct<T(==)>(q: seq<T>) {
    forall i, j :: 0 <= i < j < |q| ==> q[i] != q[j]
  }

  function Succ(n: nat, i: nat): nat {
    if i + 1 < n then i + 1 else 0
  }

  /** The nodes of `ns`, in this order, form a closed ring in both directions. */
  ghost predicate Ring(ns: seq<Node>)
    reads ns
  {
    ns != [] && Distinct(ns) && forall i :: 0 <= i < |ns| ==> Linked(ns[i], ns[Succ(|ns|, i)])
  }

  method InitListHead(list: Node)
    modifies list
    ensures Ring([list])
  {
    list.next := list;
    list.prev := list;
  }

  /** Puts a node between two linked neighbours; all other links stay. */
  method AddBetween(entry: Node, prev: Node, next: Node)
    requires Linked(prev, next) && entry != prev && entry != next
    modifies entry, prev`next, next`prev
    ensures Linked(prev, entry) && Linked(entry, next)
  {
    next.prev := entry;
    entry.next := next;
    entry.prev := prev;
    prev.next := entry;
  }

  /** `ns` with `x` put at position `k`. */
  function With<T>(ns: seq<T>, k: nat, x: T): (r: seq<T>)
    requires k <= |ns|
    ensures |r| == |ns| + 1 && r[k] == x
    ensures forall i :: 0 <= i < k ==> r[i] == ns[i]
    ensures forall i :: k < i <= |ns| ==> r[i] == ns[i - 1]
  {
    ns[..k] + [x] + ns[k..]
  }

  lemma WithDistinct<T>(ns: seq<T>, k: nat, x: T)
    requires k <= |ns| && Distinct(ns) && x !in ns
    ensures Distinct(With(ns, k, x))
  {
    var r := With(ns, k, x);
    forall i, j | 0 <= i < j < |r| ensures r[i] != r[j] {
      assert i != k ==> r[i] == ns[if i < k then i else i - 1];
      assert j != k ==> r[j] == ns[if j < k then j else j - 1];
    }
  }

  /** Adds a node between positions `k - 1` and `k` of a ring (`k == |ns|` meaning before the head). */
  method AddAt(entry: Node, prev: Node, next: Node, ghost ns: seq<Node>, ghost k: nat)
    requires Ring(ns) && 0 < k <= |ns| && entry !in ns
    requires prev == ns[k - 1] && next == ns[Succ(|ns|, k - 1)]
    modifies entry, ns
    ensures Ring(With(ns, k, entry))
  {
    hide With, Distinct;
    WithDistinct(ns, k, entry);
    assert Linked(ns[k - 1], ns[Succ(|ns|, k - 1)]);
    AddBetween(entry, prev, next);
    ghost var r := With(ns, k, entry);
    forall x | 0 <= x < |r| ensures Linked(r[x], r[Succ(|r|, x)]) {
      if x != k && x != k - 1 {
        var y := if x < k then x else x - 1;
        assert r[x] == ns[y] && r[Succ(|r|, x)] == ns[Succ(|ns|, y)];
        OtherPair(ns, k - 1, y);
      }
    }
  }

  /** Two different positions of a ring differ in their node and in their successor. */
  lemma OtherPair(ns: seq<Node>, i: nat, j: nat)
    requires Distinct(ns) && i < |ns| && j < |ns| && i != j
    ensures ns[i] != ns[j] && ns[Succ(|ns|, i)] != ns[Succ(|ns|, j)]
  {
  }

  /** Adds a node right before the one at position `i`; before the head means at the end. */
  method AddTail(entry: Node, before: Node, ghost ns: seq<Node>, ghost i: nat)
    requires Ring(ns) && i < |ns| && ns[i] == before && entry !in ns
    modifies entry, ns
    ensures Ring(if i == 0 then ns + [entry] else With(ns, i, entry))
  {
    ghost var k := if i == 0 then |ns| else i;
    assert Linked(ns[k - 1], ns[Succ(|ns|, k - 1)]);
    AddAt(entry, before.prev, before, ns, k);
    assert With(ns, |ns|, entry) == ns + [entry];
  }

  /** Adds a node right after the head. */
  method Add(entry: Node, head: Node, ghost ns: seq<Node>)
    requires Ring(ns) && ns[0] == head && entry !in ns
    modifies entry, ns
    ensures Ring([head, entry] + ns[1..])
  {
    assert Linked(ns[0], ns[Succ(|ns|, 0)]);
    AddAt(entry, head, head.next, ns, 1);
    assert With(ns, 1, entry) == [head, entry] + ns[1..];
  }

  /** `ns` without position `i`. */
  function Without<T>(ns: seq<T>, i: nat): (r: seq<T>)
    requires i < |ns|
    ensures |r| == |ns| - 1
    ensures forall x :: 0 <= x < |r| ==> r[x] == ns[if x < i then x else x + 1]
  {
    ns[..i] + ns[i + 1..]
  }

  method Bridge(prev: Node, next: Node)
    modifies prev`next, next`prev
    ensures Linked(prev, next)
  {
    next.prev := prev;
    prev.next := next;
  }

  /** Takes the node at position `i` out of its ring and clears its link. */
  method Delete(entry: Node, ghost ns: seq<Node>, ghost i: nat)
    requires Ring(ns) && 0 < i < |ns| && ns[i] == entry
    modifies ns
    ensures Ring(Without(ns, i))
    ensures entry.next == null && entry.prev == null
  {
    hide Without;
    assert Linked(ns[i - 1], ns[Succ(|ns|, i - 1)]) && Linked(ns[i], ns[Succ(|ns|, i)]);
    ghost var r := Without(ns, i);
    assert r[i - 1] == ns[i - 1] && r[Succ(|r|, i - 1)] == ns[Succ(|ns|, i)];
    Bridge(entry.prev, entry.next);
    entry.next := null;
    entry.prev := null;
    forall x | 0 <= x < |r| ensures Linked(r[x], r[Succ(|r|, x)]) {
      if x != i - 1 {
        var y := if x < i then x else x + 1;
        assert r[x] == ns[y] && r[Succ(|r|, x)] == ns[Succ(|ns|, y)];
        OtherPair(ns, i - 1, y);
        OtherPair(ns, i, y);
      }
    }
  }

  lemma Links(ns: seq<Node>, i: nat)
    requires Ring(ns) && i < |ns|
    ensures ns[i].next == ns[Succ(|ns|, i)] && ns[Succ(|ns|, i)].prev == ns[i]
    ensures ns[0].prev == ns[|ns| - 1]
  {
    assert Linked(ns[i], ns[Succ(|ns|, i)]);
    assert Linked(ns[|ns| - 1], ns[Succ(|ns|, |ns| - 1)]);
  }

  /** The head of one ring, the entries of another, then its own entries. */
  function Spliced<T>(ls: seq<T>, hs: seq<T>): (r: seq<T>)
    requires ls != [] && hs != []
    ensures |r| == |ls| + |hs| - 1
    ensures forall x :: 0 <= x < |r| ==> r[x] == if x == 0 then hs[0] else if x < |ls| then ls[x] else hs[x - |ls| + 1]
  {
    [hs[0]] + ls[1..] + hs[1..]
  }

  lemma SplicedDistinct<T>(ls: seq<T>, hs: seq<T>)
    requires ls != [] && hs != [] && Distinct(ls) && Distinct(hs)
    requires forall n :: n in ls ==> n !in hs
    ensures Distinct(Spliced(ls, hs))
  {
    hide Spliced;
    var r := Spliced(ls, hs);
    forall i, j | 0 <= i < j < |r| ensures r[i] != r[j] {
      assert ls[0] in ls;
      assert 0 < i < |ls| ==> r[i] in ls;
      assert 0 < j < |ls| ==> r[j] in ls;
      assert (i == 0 || |ls| <= i) ==> r[i] in hs;
      assert (j == 0 || |ls| <= j) ==> r[j] in hs;
    }
  }

  /** Moves all nodes of one ring to the front of another and leaves the first ring empty. */
  method SpliceInit(list: Node, head: Node, ghost ls: seq<Node>, ghost hs: seq<Node>)
    requires Ring(ls) && Ring(hs) && ls[0] == list && hs[0] == head
    requires forall n :: n in ls ==> n !in hs
    modifies ls, hs
    ensures Ring([list]) && Ring(Spliced(ls, hs))
  {
    Links(ls, 0);
    Links(hs, 0);
    if list.next != list {
      SpliceFull(list, head, ls, hs);
    } else {
      assert |ls| == 1;
      assert Spliced(ls, hs) == hs;
    }
  }

  method SpliceFull(list: Node, head: Node, ghost ls: seq<Node>, ghost hs: seq<Node>)
    requires Ring(ls) && Ring(hs) && ls[0] == list && hs[0] == head && |ls| > 1
    requires forall n :: n in ls ==> n !in hs
    modifies ls, hs
    ensures Ring([list]) && Ring(Spliced(ls, hs))
  {
    hide Spliced, Distinct;
    SplicedDistinct(ls, hs);
    Links(ls, 0);
    Links(hs, 0);
    var first, last, at := list.next, list.prev, head.next;
    assert first == ls[1] && last == ls[|ls| - 1] && at == hs[Succ(|hs|, 0)];
    Apart(ls, hs);
    HeadOnce(ls);
    Bridge(head, first);
    Bridge(last, at);
    InitListHead(list);
    ghost var r := Spliced(ls, hs);
    forall x | 0 <= x < |r| ensures Linked(r[x], r[Succ(|r|, x)]) {
      if 0 < x < |ls| - 1 {
        OtherPair(ls, 0, x);
        OtherPair(ls, |ls| - 1, x);
        assert r[x] == ls[x] && r[Succ(|r|, x)] == ls[Succ(|ls|, x)];
      } else if |ls| <= x {
        OtherPair(hs, 0, x - |ls| + 1);
        assert r[x] == hs[x - |ls| + 1] && r[Succ(|r|, x)] == hs[Succ(|hs|, x - |ls| + 1)];
      }
    }
  }

  lemma Apart<T>(ls: seq<T>, hs: seq<T>)
    requires forall n :: n in ls ==> n !in hs
    ensures forall i, j :: 0 <= i < |ls| && 0 <= j < |hs| ==> ls[i] != hs[j]
  {
    forall i, j | 0 <= i < |ls| && 0 <= j < |hs| ensures ls[i] != hs[j] {
      assert ls[i] in ls && hs[j] in hs;
    }
  }

  /** Walks to the first entry with a larger key; the head itself if there is none. */
  method FindPlace(head: Node, key: nat, ghost ns: seq<Node>) returns (cursor: Node, ghost i: nat)
    requires Ring(ns) && ns[0] == head
    ensures 1 <= i <= |ns| && cursor == ns[if i < |ns| then i else 0]
    ensures forall x :: 1 <= x < i ==> ns[x].key <= key
    ensures i < |ns| ==> key < ns[i].key
  {
    hide Ring;
    HeadOnce(ns);
    Links(ns, 0);
    cursor := head.next;
    i := 1;
    while cursor != head
      invariant 1 <= i <= |ns| && cursor == ns[if i < |ns| then i else 0]
      invariant forall x :: 1 <= x < i ==> ns[x].key <= key
      decreases |ns| - i
    {
      if key < cursor.key {
        return;
      }
      Links(ns, i);
      cursor := cursor.next;
      i := i + 1;
    }
  }

  lemma HeadOnce(ns: seq<Node>)
    requires Ring(ns)
    ensures ns != [] && forall i :: 0 < i < |ns| ==> ns[i] != ns[0]
  {
  }

  /** Adds a node to a list sorted by key, before the first larger one. */
  method AddSorted(head: Node, entry: Node, ghost ns: seq<Node>)
    requires Ring(ns) && ns[0] == head && entry !in ns
    modifies entry, ns
    ensures Ring([head] + Insert(ns[1..], entry, KeyOf))
  {
    hide Ring, Insert;
    HeadOnce(ns);
    var cursor, i := FindPlace(head, entry.key, ns);
    PlaceIs(ns[1..], entry, i - 1);
    assert With(ns, i, entry) == [head] + (ns[1..][..i - 1] + [entry] + ns[1..][i - 1..]);
    assert i == |ns| ==> With(ns, i, entry) == ns + [entry];
    AddTail(entry, cursor, ns, if i < |ns| then i else 0);
  }

  /** The position found by a scan is the one where insertion puts the node. */
  lemma {:induction false} PlaceIs(q: seq<Node>, x: Node, i: nat)
    requires i <= |q|
    requires forall j :: 0 <= j < i ==> q[j].key <= x.key
    requires i < |q| ==> x.key < q[i].key
    ensures Insert(q, x, KeyOf) == q[..i] + [x] + q[i..]
  {
    if i > 0 {
      PlaceIs(q[1..], x, i - 1);
      assert q[..i] == [q[0]] + q[1..][..i - 1];
      assert q[i..] == q[1..][i - 1..];
    } else {
      assert q[..0] + [x] + q[0..] == [x] + q;
    }
  }

  /** The first node of the list, if there is one. */
  method First(head: Node, ghost ns: seq<Node>) returns (first: Node?)
    requires Ring(ns) && ns[0] == head
    ensures first == if |ns| == 1 then null else ns[1]
  {
    Links(ns, 0);
    HeadOnce(ns);
    if head.next == head {
      return null;
    }
    return head.next;
  }

  /** Takes the first node off the list. */
  method Pop(head: Node, ghost ns: seq<Node>) returns (first: Node?)
    requires Ring(ns) && ns[0] == head
    modifies ns
    ensures |ns| == 1 ==> first == null && Ring(ns)
    ensures |ns| > 1 ==> first == ns[1] && Ring([head] + ns[2..])
  {
    first := First(head, ns);
    if first != null {
      Delete(first, ns, 1);
      assert Without(ns, 1) == [head] + ns[2..];
    }
  }
}
