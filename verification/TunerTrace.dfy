/** One course of the search in full: three tasks that share a core only because a reduction is given back
    where the steady state does not fit, before the pair of modes is looked at. */
module TunerTrace {
  import opened Numbers
  import opened Demand
  import opened DemandBound
  import opened Search
  import opened TuneMode
  import opened Tuner
  import opened TunerLimits

  const FIRST: TaskSpec := TaskSpec(1, 4, 2, 0, [1, 1])
  const SECOND: TaskSpec := TaskSpec(2, 3, 3, 1, [1, 1])
  const THIRD: TaskSpec := TaskSpec(3, 4, 3, 1, [1, 2])

  function F(): Tuned { Tuned(FIRST, [2, 2]) }

  function S(x: int): Tuned { Tuned(SECOND, [x, 3]) }

  function T(y: int): Tuned { Tuned(THIRD, [y, 3]) }

  /** The three tasks with deadlines `x` and `y` at level 0 for those above it. */
  function Three(x: int, y: int): seq<Tuned> {
    [F(), S(x), T(y)]
  }

  predicate InRange(x: int, y: int) {
    2 <= x <= 3 && 1 <= y <= 3
  }

  lemma ThreeValid(x: int, y: int)
    requires InRange(x, y)
    ensures ValidTuned(F(), 2) && ValidTuned(S(x), 2) && ValidTuned(T(y), 2)
    ensures AllValid(Three(x, y), 2) && AllReady(Three(x, y), 0, 2) && AllValid([F(), S(x)], 2) && AllValid([F()], 2)
  {
  }

  lemma ThreeSums(x: int, y: int, m: int, l: int)
    requires InRange(x, y) && ValidPairIndex(m, 2)
    ensures AllValid(Three(x, y), 2) && ValidTuned(F(), 2) && ValidTuned(S(x), 2) && ValidTuned(T(y), 2)
    ensures TotalDbf(Three(x, y), m, l, 2) == Dbf(F(), m, l, 2) + Dbf(S(x), m, l, 2) + Dbf(T(y), m, l, 2)
    ensures TotalUtil(Three(x, y), m + 1, 2)
         == TaskUtil(FIRST, m + 1, 2) + TaskUtil(SECOND, m + 1, 2) + TaskUtil(THIRD, m + 1, 2)
  {
    hide Dbf, TaskUtil;
    ThreeValid(x, y);
    PairSums(S(x), T(y), m, l, 2);
    assert Three(x, y)[1..] == [S(x), T(y)];
  }

  lemma ThreeUtil(x: int, y: int)
    requires InRange(x, y)
    ensures AllValid(Three(x, y), 2)
    ensures TotalUtil(Three(x, y), 0, 2) == 5.0 / 6.0 && TotalUtil(Three(x, y), 1, 2) == 5.0 / 6.0
  {
    hide TotalUtil, TotalDbf, Dbf;
    ThreeSums(x, y, -1, 0);
    ThreeSums(x, y, 0, 0);
  }

  // ---- the bound on the tested length is at least 2 -----------------------------------------

  lemma ThreeAbove(x: int, y: int)
    ensures Above(Three(x, y), 0) == Three(x, y)
  {
    var cs := Three(x, y);
    assert cs[1..] == [S(x), T(y)] && cs[1..][1..] == [T(y)] && cs[1..][1..][1..] == [];
    assert Above([T(y)], 0) == [T(y)];
    assert Above([S(x), T(y)], 0) == [S(x), T(y)];
  }

  lemma FiveSixthsSlack(s: int)
    ensures DensityBound(5.0 / 6.0, s) == 5.0 * s as real
  {
  }

  lemma ThreeDivides(ps: seq<nat>)
    requires |ps| == 3 && ps[0] == 4
    ensures AllPositive(ps) ==> LcmAll(ps) >= 4
  {
    if AllPositive(ps) {
      LcmFromIsLeast(1, ps, 0);
      DividesAtMost(4, LcmAll(ps));
    }
  }

  lemma ThreeBound(x: int, y: int)
    requires InRange(x, y)
    ensures AllValid(Three(x, y), 2) && LMax(Three(x, y), 0, LENGTH_CAP, 2) >= 2
  {
    hide TotalUtil, TotalDbf, LcmAll, MaxOf, DensityBound;
    ThreeValid(x, y);
    ThreeUtil(x, y);
    ThreeAbove(x, y);
    var cs := Three(x, y);
    var slacks, deadlines := Slacks(cs, 0, false, 2), Deadlines(cs, 0, false, 2);
    assert slacks[0] == 2 && deadlines[0] == 2;
    assert MaxOf(slacks) >= 2 && MaxOf(deadlines) >= 2;
    FiveSixthsSlack(MaxOf(slacks));
    var ps := Periods(cs, 2);
    assert ps[0] == 4;
    ThreeDivides(ps);
    assert ModeLMax(cs, 0, false, 2) >= 6.0;
  }

  // ---- the demand along the course ----------------------------------------------------------

  lemma At(x: int, y: int, l: int)
    requires InRange(x, y) && 0 <= l <= 2
    ensures AllValid(Three(x, y), 2)
    ensures TotalDbf(Three(x, y), -1, l, 2)
         == if l < 2 then (if y <= l then 1 else 0) else 1 + (if x <= 2 then 1 else 0) + (if y <= 2 then 1 else 0)
    ensures TotalDbf(Three(x, y), 0, l, 2)
         == PairOfSecond(x, l) + PairOfThird(y, l)
  {
    ThreeSums(x, y, -1, l);
    ThreeSums(x, y, 0, l);
    hide TotalDbf, TotalUtil;
    SteadyOf(x, y, l);
    PairOf(x, y, l);
  }

  /** Demand of the second and the third task for the pair of modes, up to length 2. */
  function PairOfSecond(x: int, l: int): int {
    if x == 3 then (if l == 0 then 0 else 1) else (if l < 2 then 0 else 1)
  }

  function PairOfThird(y: int, l: int): int {
    if y == 3 then (if l == 0 then 1 else 2) else if y == 2 then l else if l < 2 then 0 else 1
  }

  lemma SteadyOf(x: int, y: int, l: int)
    requires InRange(x, y) && 0 <= l <= 2
    ensures ValidTuned(F(), 2) && ValidTuned(S(x), 2) && ValidTuned(T(y), 2)
    ensures Dbf(F(), -1, l, 2) == (if l < 2 then 0 else 1) && Dbf(S(x), -1, l, 2) == (if l < x then 0 else 1)
    ensures Dbf(T(y), -1, l, 2) == (if l < y then 0 else 1)
  {
  }

  lemma PairOfOthers(x: int, l: int)
    requires InRange(x, 1) && 0 <= l <= 2
    ensures ValidTuned(F(), 2) && ValidTuned(S(x), 2)
    ensures Dbf(F(), 0, l, 2) == 0 && Dbf(S(x), 0, l, 2) == PairOfSecond(x, l)
  {
  }

  lemma PairOf(x: int, y: int, l: int)
    requires InRange(x, y) && 0 <= l <= 2
    ensures ValidTuned(F(), 2) && ValidTuned(S(x), 2) && ValidTuned(T(y), 2)
    ensures Dbf(F(), 0, l, 2) == 0 && Dbf(S(x), 0, l, 2) == PairOfSecond(x, l)
    ensures Dbf(T(y), 0, l, 2) == PairOfThird(y, l)
  {
    hide S;
    PairOfOthers(x, l);
  }

  // ---- the four moves -----------------------------------------------------------------------

  function Start(): State { State(Three(3, 3), [1, 2], [], {}) }

  function One(): State { State(Three(3, 2), [1, 2], [2], {}) }

  function Two(): State { State(Three(2, 2), [1, 2], [2, 1], {}) }

  function Back(): State { State(Three(3, 2), [2], [2], {1}) }

  function Last(): State { State(Three(3, 1), [], [2, 2], {1}) }

  lemma Lengths(x: int, y: int, l: int, steady: bool)
    requires InRange(x, y) && 0 <= l <= 2 && AllValid(Three(x, y), 2)
    requires forall k :: 0 <= k < l ==>
               TotalDbf(Three(x, y), 0, k, 2) <= k && TotalDbf(Three(x, y), -1, k, 2) <= k
    requires if steady then TotalDbf(Three(x, y), -1, l, 2) > l
             else TotalDbf(Three(x, y), -1, l, 2) <= l < TotalDbf(Three(x, y), 0, l, 2)
    ensures FirstBad(Three(x, y), 0, l, steady, 2)
  {
    hide TotalDbf, LMax, Three;
    ThreeBound(x, y);
  }

  lemma SetSecond(x: int, y: int, v: int)
    ensures Three(x, y)[1 := WithDeadline(Three(x, y)[1], 0, v)] == Three(v, y)
  {
    assert [x, 3][0 := v] == [v, 3];
  }

  lemma SetThird(x: int, y: int, v: int)
    ensures Three(x, y)[2 := WithDeadline(Three(x, y)[2], 0, v)] == Three(x, v)
  {
    assert [y, 3][0 := v] == [v, 3];
  }

  lemma GainsOf(x: int, y: int, l: int)
    requires InRange(x, y) && 0 <= l <= 2
    ensures ValidTuned(S(x), 2) && ValidTuned(T(y), 2)
    ensures l > 0 ==> Gain(S(x), 0, l, 2) == PairOfSecond(x, l) - PairOfSecond(x, l - 1)
    ensures l > 0 ==> Gain(T(y), 0, l, 2) == PairOfThird(y, l) - PairOfThird(y, l - 1)
    ensures l == 0 ==> Gain(S(x), 0, l, 2) == PairOfSecond(x, 0) && Gain(T(y), 0, l, 2) == PairOfThird(y, 0)
  {
    PairOf(x, y, l);
    if l > 0 {
      PairOf(x, y, l - 1);
    } else {
      NoDemand(S(x));
      NoDemand(T(y));
    }
    hide Dbf;
  }

  lemma NoDemand(c: Tuned)
    requires ValidTuned(c, 2)
    ensures Dbf(c, 0, -1, 2) == 0
  {
  }

  lemma FirstMove()
    ensures Moves(Start(), One(), 0, 2)
  {
    hide FirstBad, Gain, TotalDbf;
    At(3, 3, 0);
    GainsOf(3, 3, 0);
    Lengths(3, 3, 0, false);
    SetThird(3, 3, 2);
    assert IsTarget(Start(), 1, 0, 0, 2);
    assert [] + [2] == [2];
    assert Lowered(Start(), 1, 0, 2) == One();
  }

  lemma SecondMove()
    ensures Moves(One(), Two(), 0, 2)
  {
    hide FirstBad, Gain, TotalDbf;
    At(3, 2, 0);
    At(3, 2, 1);
    GainsOf(3, 2, 1);
    Lengths(3, 2, 1, false);
    SetSecond(3, 2, 2);
    assert IsTarget(One(), 0, 0, 1, 2);
    assert [2] + [1] == [2, 1];
    assert Lowered(One(), 0, 0, 2) == Two();
  }

  /** At length 2 both the steady state and the pair of modes are too large: the steady state decides. */
  lemma ThirdMove()
    ensures Moves(Two(), Back(), 0, 2)
    ensures AllValid(Three(2, 2), 2) && TotalDbf(Three(2, 2), -1, 2, 2) == 3 && TotalDbf(Three(2, 2), 0, 2, 2) == 3
  {
    hide FirstBad, TotalDbf;
    At(2, 2, 0);
    At(2, 2, 1);
    At(2, 2, 2);
    Lengths(2, 2, 2, true);
    SetSecond(2, 2, 3);
    assert [2, 1][..1] == [2] && [1, 2][1..] == [2] && {} + {1} == {1};
    assert GivenBack(Two(), 0, 2) == Back();
  }

  lemma FourthMove()
    ensures Moves(Back(), Last(), 0, 2)
  {
    hide FirstBad, Gain, TotalDbf;
    At(3, 2, 0);
    At(3, 2, 1);
    Lengths(3, 2, 1, false);
    SetThird(3, 2, 1);
    assert IsTarget(Back(), 0, 0, 1, 2);
    assert [2] + [2] == [2, 2] && [2][1..] == [];
    assert Lowered(Back(), 0, 0, 2) == Last();
  }

  lemma LastPair(l: int)
    requires 0 <= l && ValidTuned(F(), 2) && ValidTuned(S(3), 2) && ValidTuned(T(1), 2)
    ensures Dbf(F(), 0, l, 2) + Dbf(S(3), 0, l, 2) + Dbf(T(1), 0, l, 2) <= l
  {
  }

  lemma LastSteady(l: int)
    requires 0 <= l && ValidTuned(F(), 2) && ValidTuned(S(3), 2) && ValidTuned(T(1), 2)
    ensures Dbf(F(), -1, l, 2) + Dbf(S(3), -1, l, 2) + Dbf(T(1), -1, l, 2) <= l
  {
  }

  lemma LastFits(l: int)
    requires 0 <= l
    ensures AllValid(Three(3, 1), 2) && TotalDbf(Three(3, 1), 0, l, 2) <= l && TotalDbf(Three(3, 1), -1, l, 2) <= l
  {
    hide TotalDbf, TotalUtil, Dbf;
    ThreeSums(3, 1, 0, l);
    ThreeSums(3, 1, -1, l);
    LastPair(l);
    LastSteady(l);
  }

  lemma LastFinished()
    ensures Finished(Last(), 0, 2)
  {
    hide TotalDbf, LMax;
    ThreeValid(3, 1);
    forall l | 0 <= l ensures TotalDbf(Three(3, 1), 0, l, 2) <= l && TotalDbf(Three(3, 1), -1, l, 2) <= l {
      LastFits(l);
    }
  }

  lemma ThreeAt()
    ensures AboveAt(Three(3, 3), 0) == [1, 2]
  {
    var cs := Three(3, 3);
    hide Distinct;
    assert cs[..2] == [F(), S(3)] && [F(), S(3)][..1] == [F()] && [F()][..0] == [];
    assert AboveAt([], 0) == [];
    assert AboveAt([F()], 0) == [];
    assert AboveAt([F(), S(3)], 0) == [1];
  }

  lemma ThreeRoomy()
    ensures Roomy(Three(3, 3), [1, 2], 0) == [1, 2]
  {
    var cs := Three(3, 3);
    hide Distinct;
    assert [1, 2][..1] == [1] && [1][..0] == [];
    assert HasRoom(cs[1], 0) && HasRoom(cs[2], 0);
    assert Roomy(cs, [], 0) == [];
    assert Roomy(cs, [1], 0) == [1];
  }

  lemma SearchStarts()
    ensures HasPair(Three(3, 3), 0) && StartOf(Three(3, 3), 0) == Start()
    ensures Clampable(Three(3, 3), 0) && AnyAbove(Three(3, 3), 0)
  {
    ThreeAt();
    ThreeRoomy();
    hide ClampThese, AboveAt, Roomy;
    SetSecond(3, 3, 3);
    SetThird(3, 3, 3);
    assert ClampAll(Three(3, 3), 0) == Three(3, 3);
    assert Three(3, 3)[1].task.crit > 0;
  }

  /** The pass at level 0 succeeds with deadlines 3 and 1. */
  lemma PassSucceeds()
    ensures Passes(Three(3, 3), Three(3, 1), 0, 2)
  {
    ThreeValid(3, 3);
    SearchStarts();
    FirstMove();
    SecondMove();
    ThirdMove();
    FourthMove();
    LastFinished();
    hide Moves, Clampable, AnyAbove, StartOf, HasPair, Finished, Start, One, Two, Back;
    ReachedAtOnce(Start(), 0, 2);
    ReachedNext(Start(), Start(), 0, One(), 0, 2);
    ReachedNext(Start(), One(), 1, Two(), 0, 2);
    ReachedNext(Start(), Two(), 2, Back(), 0, 2);
    ReachedNext(Start(), Back(), 3, Last(), 0, 2);
    hide ReachedIn, Three;
    PassFound(Three(3, 3), Last(), 4, 0, 2);
  }

  // ---- on a core ----------------------------------------------------------------------------

  lemma ThreeStarts()
    ensures ValidSpec(FIRST, 2) && ValidSpec(SECOND, 2) && ValidSpec(THIRD, 2)
    ensures FIRST.id != SECOND.id && |THIRD.wcet| == 2 && THIRD.deadline == 3
    ensures Starts([FIRST, SECOND, THIRD], 2) == Three(3, 3)
    ensures Starts([FIRST, SECOND], 2) == [F(), S(3)] && Starts([FIRST], 2) == [F()]
  {
    assert seq(2, _ => 2) == [2, 2] && seq(2, _ => 3) == [3, 3];
    assert forall i :: 0 <= i < 3 ==> Starts([FIRST, SECOND, THIRD], 2)[i] == Three(3, 3)[i];
    assert forall i :: 0 <= i < 2 ==> Starts([FIRST, SECOND], 2)[i] == [F(), S(3)][i];
  }

  lemma TwoDemand(l: int)
    requires 0 <= l
    ensures AllValid([F(), S(3)], 2) && TotalDbf([F(), S(3)], 0, l, 2) <= l && TotalDbf([F(), S(3)], -1, l, 2) <= l
  {
    hide TotalDbf, TotalUtil;
    ThreeValid(3, 3);
    PairSums(F(), S(3), -1, l, 2);
    PairSums(F(), S(3), 0, l, 2);
  }

  lemma TwoUntuned()
    ensures AllValid([F(), S(3)], 2) && PassesUntuned([F(), S(3)], 2) && AllValid([F()], 2) && PassesUntuned([F()], 2)
    ensures TotalUtil([F(), S(3)], 0, 2) == 7.0 / 12.0 && TotalUtil([F(), S(3)], 1, 2) == 1.0 / 3.0
  {
    hide TotalDbf, TotalUtil, LMax, Dbf;
    ThreeValid(3, 3);
    PairSums(F(), S(3), -1, 0, 2);
    PairSums(F(), S(3), 0, 0, 2);
    forall l | 0 <= l ensures TotalDbf([F(), S(3)], 0, l, 2) <= l && TotalDbf([F(), S(3)], -1, l, 2) <= l {
      TwoDemand(l);
    }
    assert Clampable([F(), S(3)], 0);
  }

  lemma ThirdAccepted(utilization: seq<real>)
    requires |utilization| == 2 && utilization[0] == 7.0 / 12.0 && utilization[1] == 1.0 / 3.0
    ensures Accepted([FIRST, SECOND, THIRD], Three(3, 1), THIRD, utilization, 2)
  {
    hide Passes, DownTo, Starts;
    ThreeStarts();
    ThreeValid(3, 3);
    var start := Three(3, 3);
    NotYet([FIRST, SECOND, THIRD], THIRD, utilization, 2);
    PassTrivially(start, 1, 2);
    assert !Overload(THIRD, utilization, 1, 2) && !Overload(THIRD, utilization, 0, 2);
    OneLevelDown(start, start, start, 1, THIRD, utilization, 2);
    PassSucceeds();
    OneLevelDown(start, start, Three(3, 1), 0, THIRD, utilization, 2);
  }

  lemma TwoUtil(core: Core)
    requires core.Valid() && core.levels == 2 && Snap(core.Assigned()) == [F(), S(3)]
    ensures |core.utilization| == 2 && core.utilization[0] == 7.0 / 12.0 && core.utilization[1] == 1.0 / 3.0
  {
    hide TotalUtil, Settled;
    TwoUntuned();
  }

  lemma TwoSpecs(ts: seq<Task>, t: Task)
    requires Snap(ts) == [F(), S(3)] && t.spec == THIRD
    ensures SpecsOf(ts + [t]) == [FIRST, SECOND, THIRD]
  {
    assert Snap(ts)[0] == F() && Snap(ts)[1] == S(3);
  }

  /** The three tasks are accepted on one core, with deadlines 3 and 1 at level 0 for those above it. */
  method ThreeAccepted() returns (core: Core)
    ensures fresh(core) && core.levels == 2 && core.Valid()
    ensures Snap(core.Assigned())
         == [Tuned(FIRST, [2, 2]), Tuned(SECOND, [3, 3]), Tuned(THIRD, [1, 3])]
  {
    hide *;
    ThreeStarts();
    TwoUntuned();
    ThreeValid(3, 3);
    core := PlaceBoth(FIRST, SECOND, 2);
    var ts := core.Assigned();
    assert |ts| == |Snap(ts)| == 2 && ts[0] in ts && ts[1] in ts;
    core.CoreFacts();
    TwoUtil(core);
    var third := new Task(THIRD);
    NewThird(ts, third);
    TwoSpecs(ts, third);
    ThirdAccepted(core.utilization);
    ghost var utilization := core.utilization;
    RefusedOrAccepted([FIRST, SECOND, THIRD], THIRD, utilization, 2);
    assert core.Assigned() == ts == [ts[0], ts[1]];
    var ok := core.TuneSystem(third, Primary, true);
    core.CoreFacts();
    assert core.Assigned() == ts + [third];
    ThreeAre();
  }

  lemma ThreeAre()
    ensures Three(3, 1) == [Tuned(FIRST, [2, 2]), Tuned(SECOND, [3, 3]), Tuned(THIRD, [1, 3])]
  {
  }

  lemma NewThird(ts: seq<Task>, t: Task)
    requires Snap(ts) == [F(), S(3)] && t !in ts && t.spec == THIRD && t.vd == seq(2, _ => 3)
    ensures Newcomer(ts, t, 2)
  {
    assert t.vd == [3, 3];
    assert Snap(ts)[0] == F() && Snap(ts)[1] == S(3);
  }
}
