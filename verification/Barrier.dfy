/** The reusable barrier: threads arrive one at a time under a lock; the last one starts the next
    cycle and gets the serial result, the others wait until the cycle number has moved on. */
module Barrier {
  import opened Common

  /** A waiting thread remembers the cycle number it read on arrival. */
  datatype Place = Outside | Waiting(cur: nat)

  /** The barrier and its threads. `results` lists what each thread's calls have returned (true for
      the serial result) and `serial` names the last arrival of each completed cycle; both are a
      record of what happened. */
  datatype Bar<T(==)> = Bar(
    target: nat, count: nat, cycle: nat,
    place: map<T, Place>, results: map<T, seq<bool>>, serial: seq<T>)

  function Fresh<T>(members: set<T>): Bar<T> {
    Bar(|members|, 0, 0, map t | t in members :: Outside, map t | t in members :: [], [])
  }

  predicate CanArrive<T(==)>(b: Bar<T>, t: T) {
    t in b.place && t in b.results && b.place[t].Outside?
  }

  /** The critical section on entry: the last arrival returns at once, the others wait. */
  function Arrive<T>(b: Bar<T>, t: T): Bar<T>
    requires CanArrive(b, t)
  {
    if b.count + 1 == b.target then
      b.(count := 0, cycle := b.cycle + 1,
         results := b.results[t := b.results[t] + [true]], serial := b.serial + [t])
    else
      b.(count := b.count + 1, place := b.place[t := Waiting(b.cycle)])
  }

  predicate CanLeave<T(==)>(b: Bar<T>, t: T) {
    t in b.place && t in b.results && b.place[t].Waiting? && b.place[t].cur != b.cycle
  }

  /** A woken thread that finds the cycle number changed returns zero. */
  function Leave<T>(b: Bar<T>, t: T): Bar<T>
    requires CanLeave(b, t)
  {
    b.(place := b.place[t := Outside], results := b.results[t := b.results[t] + [false]])
  }

  function WaitingSet<T>(place: map<T, Place>, cycle: nat): set<T> {
    set t | t in place && place[t] == Waiting(cycle)
  }

  /** Completed rounds of a thread. */
  function Rounds<T>(b: Bar<T>, t: T): nat
    requires t in b.results
  {
    |b.results[t]|
  }

  /** Rounds at which a thread has arrived. */
  function Arrivals<T>(b: Bar<T>, t: T): nat
    requires t in b.results && t in b.place
  {
    Rounds(b, t) + if b.place[t].Waiting? then 1 else 0
  }

  predicate MemberOk<T>(b: Bar<T>, t: T)
    requires t in b.place && t in b.results
  {
    && |b.serial| == b.cycle && Rounds(b, t) <= b.cycle
    && (match b.place[t]
        case Outside => Rounds(b, t) == b.cycle
        case Waiting(cur) =>
          Rounds(b, t) == cur && (cur == b.cycle || (cur + 1 == b.cycle && b.serial[cur] != t)))
    && forall r :: 0 <= r < Rounds(b, t) ==> (b.results[t][r] <==> b.serial[r] == t)
  }

  ghost predicate Inv<T>(b: Bar<T>) {
    && b.place.Keys == b.results.Keys
    && |b.place| == b.target
    && b.count == |WaitingSet(b.place, b.cycle)|
    && b.count < b.target
    && |b.serial| == b.cycle
    && (forall t :: t in b.place ==> MemberOk(b, t))
    && (forall r :: 0 <= r < |b.serial| ==> b.serial[r] in b.place)
  }

  lemma FreshInv<T>(members: set<T>)
    requires members != {}
    ensures Inv(Fresh(members)) && Fresh(members).place.Keys == members
  {
    var b := Fresh(members);
    assert b.place.Keys == members && b.results.Keys == members;
    assert WaitingSet(b.place, 0) == {};
  }

  /** When only `t` is missing, everyone else is waiting in the current cycle. */
  lemma OthersWaiting<T>(b: Bar<T>, t: T)
    requires Inv(b) && CanArrive(b, t) && b.count + 1 == b.target
    ensures forall u :: u in b.place && u != t ==> b.place[u] == Waiting(b.cycle)
  {
    var w := WaitingSet(b.place, b.cycle);
    SubsetSize(w, b.place.Keys - {t});
    forall u | u in b.place && u != t ensures b.place[u] == Waiting(b.cycle) {
      assert u in w;
    }
  }

  lemma ArriveMembers<T>(b: Bar<T>, t: T, u: T)
    requires CanArrive(b, t) && u in b.place && u in b.results && MemberOk(b, u)
    requires b.count + 1 == b.target && u != t ==> b.place[u] == Waiting(b.cycle)
    ensures u in Arrive(b, t).place && u in Arrive(b, t).results && MemberOk(Arrive(b, t), u)
  {
    var b' := Arrive(b, t);
    var n := Rounds(b, u);
    if b.count + 1 == b.target {
      assert forall r :: 0 <= r < n ==> b'.serial[r] == b.serial[r];
      if u == t {
        assert b'.results[u] == b.results[u] + [true] && b'.serial[n] == t;
        assert forall r :: 0 <= r < n ==> b'.results[u][r] == b.results[u][r];
      }
    }
  }

  lemma ArriveWaiting<T>(b: Bar<T>, t: T)
    requires Inv(b) && CanArrive(b, t)
    requires b.count + 1 == b.target ==> forall u :: u in b.place && u != t ==> b.place[u] == Waiting(b.cycle)
    ensures Arrive(b, t).count == |WaitingSet(Arrive(b, t).place, Arrive(b, t).cycle)| < b.target
  {
    hide MemberOk;
    var b' := Arrive(b, t);
    if b.count + 1 == b.target {
      assert WaitingSet(b'.place, b'.cycle) == {};
    } else {
      assert WaitingSet(b'.place, b'.cycle) == WaitingSet(b.place, b.cycle) + {t};
    }
  }

  lemma ArriveInv<T>(b: Bar<T>, t: T)
    requires Inv(b) && CanArrive(b, t)
    ensures Inv(Arrive(b, t)) && Arrive(b, t).place.Keys == b.place.Keys
  {
    var b' := Arrive(b, t);
    if b.count + 1 == b.target {
      OthersWaiting(b, t);
    }
    ArriveWaiting(b, t);
    hide MemberOk, WaitingSet;
    forall u | u in b'.place ensures u in b'.results && MemberOk(b', u) {
      ArriveMembers(b, t, u);
    }
    assert b'.place.Keys == b.place.Keys && b'.results.Keys == b.results.Keys;
    assert |b'.place| == |b'.place.Keys| == |b.place.Keys|;
  }

  lemma LeaveMembers<T>(b: Bar<T>, t: T, u: T)
    requires CanLeave(b, t) && u in b.place && u in b.results && MemberOk(b, u)
    ensures u in Leave(b, t).place && u in Leave(b, t).results && MemberOk(Leave(b, t), u)
  {
    var n := Rounds(b, u);
    assert u == t ==> forall r :: 0 <= r < n ==> Leave(b, t).results[u][r] == b.results[u][r];
  }

  lemma LeaveInv<T>(b: Bar<T>, t: T)
    requires Inv(b) && CanLeave(b, t)
    ensures Inv(Leave(b, t)) && Leave(b, t).place.Keys == b.place.Keys
  {
    hide MemberOk;
    var b' := Leave(b, t);
    assert WaitingSet(b'.place, b'.cycle) == WaitingSet(b.place, b.cycle);
    forall u | u in b'.place ensures u in b'.results && MemberOk(b', u) {
      LeaveMembers(b, t, u);
    }
    assert b'.place.Keys == b.place.Keys && b'.results.Keys == b.results.Keys;
    assert |b'.place| == |b'.place.Keys| == |b.place.Keys|;
  }

  // ---- runs ---------------------------------------------------------------------------------

  datatype Event<T> = Arrives(t: T) | Leaves(t: T)

  predicate Legal<T(==)>(b: Bar<T>, es: seq<Event<T>>)
    decreases |es|
  {
    es == [] ||
    match es[0]
    case Arrives(t) => CanArrive(b, t) && Legal(Arrive(b, t), es[1..])
    case Leaves(t) => CanLeave(b, t) && Legal(Leave(b, t), es[1..])
  }

  function Run<T>(b: Bar<T>, es: seq<Event<T>>): Bar<T>
    requires Legal(b, es)
    decreases |es|
  {
    if es == [] then b
    else match es[0]
      case Arrives(t) => Run(Arrive(b, t), es[1..])
      case Leaves(t) => Run(Leave(b, t), es[1..])
  }

  lemma {:induction false} RunInv<T>(b: Bar<T>, es: seq<Event<T>>)
    requires Inv(b) && Legal(b, es)
    ensures Inv(Run(b, es)) && Run(b, es).place.Keys == b.place.Keys
    decreases |es|
  {
    if es != [] {
      match es[0]
      case Arrives(t) =>
        ArriveInv(b, t);
        RunInv(Arrive(b, t), es[1..]);
      case Leaves(t) =>
        LeaveInv(b, t);
        RunInv(Leave(b, t), es[1..]);
    }
  }

  /** No thread passes a round before every participant has arrived at it. */
  lemma NoEarlyPass<T>(members: set<T>, es: seq<Event<T>>, t: T, u: T)
    requires members != {} && Legal(Fresh(members), es) && t in members && u in members
    ensures var b := Run(Fresh(members), es);
            t in b.results && u in b.results && u in b.place && Rounds(b, t) <= Arrivals(b, u)
  {
    FreshInv(members);
    RunInv(Fresh(members), es);
    var b := Run(Fresh(members), es);
    assert MemberOk(b, t) && MemberOk(b, u);
  }

  /** When all participants have completed a round, exactly one of them got the serial result. */
  lemma OneSerialResult<T>(members: set<T>, es: seq<Event<T>>, r: nat)
    requires members != {} && Legal(Fresh(members), es)
    requires var b := Run(Fresh(members), es);
             forall t :: t in members ==> t in b.results && r < Rounds(b, t)
    ensures var b := Run(Fresh(members), es);
            exists w :: w in members && w in b.results && r < Rounds(b, w) && b.results[w][r]
              && forall t :: t in members && t != w ==> t in b.results && r < Rounds(b, t) && !b.results[t][r]
  {
    FreshInv(members);
    RunInv(Fresh(members), es);
    var b := Run(Fresh(members), es);
    var m :| m in members;
    assert MemberOk(b, m);
    var w := b.serial[r];
    forall t | t in members ensures b.results[t][r] <==> t == w {
      assert MemberOk(b, t);
    }
  }

  /** Two participants are never more than one round apart. */
  lemma RoundsClose<T>(b: Bar<T>, t: T, u: T)
    requires Inv(b) && t in b.place && u in b.place
    ensures Rounds(b, t) <= Rounds(b, u) + 1
  {
    assert MemberOk(b, t) && MemberOk(b, u);
  }

  lemma SomeoneWaits<T>(b: Bar<T>)
    requires Inv(b)
    ensures b.count != 0 <==> exists t :: t in b.place && b.place[t] == Waiting(b.cycle)
    ensures b.count == 0 <==> forall t :: t in b.place && b.place[t].Waiting? ==> CanLeave(b, t)
  {
    var w := WaitingSet(b.place, b.cycle);
    if b.count != 0 {
      assert w != {};
      var t :| t in w;
      assert b.place[t] == Waiting(b.cycle);
    } else {
      assert w == {};
      forall t | t in b.place && b.place[t].Waiting? ensures CanLeave(b, t) {
        assert t !in w && MemberOk(b, t);
      }
    }
  }

  // ---- the barrier object -------------------------------------------------------------------

  datatype Status = Success | Invalid | Busy

  class BarrierObject {
    var count: nat
    var target: nat
    var cycle: nat

    constructor () {
      count, target, cycle := 0, 0, 0;
    }

    /** Afterwards the fields are those of a barrier at which none of its `n` members has arrived yet. */
    method Init<T>(n: nat, ghost members: set<T>) returns (status: Status)
      requires |members| == n
      modifies this
      ensures status == Invalid <==> members == {}
      ensures members == {} ==> unchanged(this)
      ensures members != {} ==> status == Success && Represents(Fresh(members)) && Inv(Fresh(members))
    {
      if members != {} {
        FreshInv(members);
      }
      if n == 0 {
        return Invalid;
      }
      target, count, cycle := n, 0, 0;
      return Success;
    }

    /** Refused exactly while some thread waits for the present cycle to end; a thread that has been
        released but has not left yet does not count. */
    method Destroy<T>(ghost b: Bar<T>) returns (status: Status)
      requires Inv(b) && Represents(b)
      ensures status == Busy <==> exists t :: t in b.place && b.place[t] == Waiting(b.cycle)
      ensures status == Success <==> forall t :: t in b.place && b.place[t].Waiting? ==> CanLeave(b, t)
    {
      SomeoneWaits(b);
      if count != 0 {
        return Busy;
      }
      return Success;
    }

    ghost predicate Represents<T>(b: Bar<T>)
      reads this
    {
      b.count == count && b.target == target && b.cycle == cycle
    }

    /** The part of waiting that runs under the lock on entry: what it does to the fields is what
        `Arrive` does to the barrier. */
    method Enter<T>(ghost b: Bar<T>, ghost t: T) returns (serial: bool, curCycle: nat)
      requires Inv(b) && CanArrive(b, t) && Represents(b)
      modifies this
      ensures Represents(Arrive(b, t))
      ensures serial <==> Arrive(b, t).place[t].Outside?
      ensures !serial ==> Arrive(b, t).place[t] == Waiting(curCycle)
    {
      curCycle := cycle;
      count := count + 1;
      if count == target {
        cycle := cycle + 1;
        count := 0;
        serial := true;
      } else {
        serial := false;
      }
    }

    /** The test of the wait loop: whether a waiting thread may leave. */
    method MayLeave<T>(ghost b: Bar<T>, ghost t: T, curCycle: nat) returns (released: bool)
      requires Inv(b) && Represents(b) && t in b.place && b.place[t] == Waiting(curCycle)
      ensures released <==> CanLeave(b, t)
    {
      released := curCycle != cycle;
    }
  }
}
