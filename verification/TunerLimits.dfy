/** Where the tuner's answer says less than one might expect: what it does not test, and what it does
    not try. */
module TunerLimits {
  import opened Numbers
  import opened Demand
  import opened DemandBound
  import opened Search
  import opened TuneMode
  import opened Tuner

  /** Two tasks are offered to an empty core, one after the other. If neither they nor the first one
      alone need tuning, both are accepted and keep their own deadlines. */
  method PlaceBoth(a: TaskSpec, b: TaskSpec, levels: nat) returns (core: Core)
    requires 0 < levels && ValidSpec(a, levels) && ValidSpec(b, levels) && a.id != b.id
    requires PassesUntuned(Starts([a], levels), levels) && PassesUntuned(Starts([a, b], levels), levels)
    ensures fresh(core) && core.levels == levels && core.Valid()
    ensures Snap(core.Assigned()) == Starts([a, b], levels)
    ensures core.replicas == [] && forall t :: t in core.Assigned() ==> fresh(t)
  {
    hide *;
    core := new Core(0, 0, levels);
    var first := new Task(a);
    var second := new Task(b);
    core.CoreFacts();
    FreshTask([], first, levels);
    FreshTask([first], second, levels);
    SpecsAre(first, second);
    assert core.Assigned() == [];
    var ok := core.TuneSystem(first, Primary, true);
    core.CoreFacts();
    assert core.Assigned() == [first];
    ok := core.TuneSystem(second, Primary, true);
    core.CoreFacts();
    assert core.Assigned() == [first, second];
    UntunedStarts(core.Assigned(), levels);
  }

  lemma FreshTask(ts: seq<Task>, t: Task, levels: nat)
    requires ValidSpec(t.spec, levels) && t.vd == seq(|t.spec.wcet|, _ => t.spec.deadline)
    requires forall u :: u in ts ==> u != t && u.spec.id != t.spec.id
    ensures Newcomer(ts, t, levels)
  {
  }

  lemma SpecsAre(a: Task, b: Task)
    ensures SpecsOf([] + [a]) == [a.spec] && SpecsOf([a] + [b]) == SpecsOf([a, b]) == [a.spec, b.spec]
    ensures [a] + [b] == [a, b]
  {
    assert [a] + [b] == [a, b] && [] + [a] == [a];
  }

  lemma UntunedStarts(ts: seq<Task>, levels: nat)
    requires Untuned(ts, levels)
    ensures Snap(ts) == Starts(SpecsOf(ts), levels)
  {
    forall i | 0 <= i < |ts| ensures Snap(ts)[i] == Starts(SpecsOf(ts), levels)[i] {
      assert ts[i].vd == seq(levels, _ => ts[i].spec.deadline);
    }
  }

  function LevelZeroSpec(id: nat): TaskSpec {
    TaskSpec(id, 10, 4, 0, [4, 4])
  }

  lemma PairSums(a: Tuned, b: Tuned, m: int, l: int, levels: nat)
    requires ValidTuned(a, levels) && ValidTuned(b, levels) && ValidPairIndex(m, levels)
    ensures TotalDbf([a, b], m, l, levels) == Dbf(a, m, l, levels) + Dbf(b, m, l, levels)
    ensures TotalUtil([a, b], m + 1, levels) == TaskUtil(a.task, m + 1, levels) + TaskUtil(b.task, m + 1, levels)
    ensures TotalDbf([a], m, l, levels) == Dbf(a, m, l, levels)
    ensures TotalUtil([a], m + 1, levels) == TaskUtil(a.task, m + 1, levels)
  {
    hide Dbf, TaskUtil;
    assert [a, b][1..] == [b] && [b][1..] == [] && [a][1..] == [];
    assert TotalDbf([b], m, l, levels) == Dbf(b, m, l, levels) + TotalDbf([], m, l, levels);
    assert TotalUtil([b], m + 1, levels) == TaskUtil(b.task, m + 1, levels) + TotalUtil([], m + 1, levels);
  }

  lemma StartsAre(a: TaskSpec, b: TaskSpec)
    ensures Starts([a, b], 2) == [Tuned(a, [a.deadline, a.deadline]), Tuned(b, [b.deadline, b.deadline])]
    ensures Starts([a], 2) == [Tuned(a, [a.deadline, a.deadline])]
  {
    assert seq(2, _ => a.deadline) == [a.deadline, a.deadline];
    assert seq(2, _ => b.deadline) == [b.deadline, b.deadline];
  }

  lemma LevelZeroValues()
    ensures var cs := Starts([LevelZeroSpec(1), LevelZeroSpec(2)], 2);
            && AllValid(cs, 2) && AllValid(Starts([LevelZeroSpec(1)], 2), 2)
            && TotalDbf(cs, -1, 4, 2) == 8
            && TotalUtil(cs, 0, 2) == 0.8 && TotalUtil(cs, 1, 2) == 0.0
            && TotalUtil(Starts([LevelZeroSpec(1)], 2), 0, 2) == 0.4
            && TotalUtil(Starts([LevelZeroSpec(1)], 2), 1, 2) == 0.0
  {
    hide TotalDbf, TotalUtil;
    StartsAre(LevelZeroSpec(1), LevelZeroSpec(2));
    var a, b := Tuned(LevelZeroSpec(1), [4, 4]), Tuned(LevelZeroSpec(2), [4, 4]);
    assert ValidTuned(a, 2) && ValidTuned(b, 2);
    PairSums(a, b, -1, 4, 2);
    PairSums(a, b, 0, 4, 2);
    assert TaskUtil(a.task, 0, 2) == 0.4 && TaskUtil(b.task, 0, 2) == 0.4;
    assert Dbf(a, -1, 4, 2) == 4 && Dbf(b, -1, 4, 2) == 4;
  }

  /** Without a task above level 0 the steady state is never tested: two tasks are accepted although
      they demand 8 units in an interval of length 4. */
  method SteadyStateSkipped() returns (core: Core)
    ensures fresh(core) && core.levels == 2 && core.Valid() && AllValid(Snap(core.Assigned()), 2)
    ensures TotalDbf(Snap(core.Assigned()), -1, 4, 2) == 8 && !Fits(Snap(core.Assigned()), -1, 2)
  {
    hide TotalDbf, TotalUtil, LMax, Settled, CoreOk, Dbf;
    LevelZeroValues();
    core := PlaceBoth(LevelZeroSpec(1), LevelZeroSpec(2), 2);
  }

  const SHORT: TaskSpec := TaskSpec(1, 10, 10, 1, [1, 1])
  const LONG: TaskSpec := TaskSpec(2, 4_000_000, 1_500_000, 0, [1_500_000, 1_500_000])

  function ShortTuned(): Tuned { Tuned(SHORT, [10, 10]) }

  function LongTuned(): Tuned { Tuned(LONG, [1_500_000, 1_500_000]) }

  lemma CapWitness()
    ensures Starts([SHORT, LONG], 2) == [ShortTuned(), LongTuned()] && Starts([SHORT], 2) == [ShortTuned()]
    ensures AllValid([ShortTuned(), LongTuned()], 2) && AllValid([ShortTuned()], 2)
  {
    StartsAre(SHORT, LONG);
  }

  lemma CapWitnessTested(cs: seq<Tuned>, l: int)
    requires cs == [ShortTuned(), LongTuned()] || cs == [ShortTuned()]
    requires 0 <= l <= LENGTH_CAP
    ensures AllValid(cs, 2) && TotalDbf(cs, 0, l, 2) <= l && TotalDbf(cs, -1, l, 2) <= l
  {
    hide TotalDbf, TotalUtil;
    var a, b := ShortTuned(), LongTuned();
    assert ValidTuned(a, 2) && ValidTuned(b, 2);
    PairSums(a, b, -1, l, 2);
    PairSums(a, b, 0, l, 2);
    assert Dbf(a, -1, l, 2) <= l;
    assert Dbf(a, 0, l, 2) <= l;
    assert Dbf(b, 0, l, 2) == 0;
    assert Dbf(b, -1, l, 2) == 0;
  }

  lemma CapWitnessValues()
    ensures var cs := [ShortTuned(), LongTuned()];
            && AllValid(cs, 2) && AllValid([ShortTuned()], 2)
            && TotalDbf(cs, -1, 1_500_000, 2) > 1_500_000
            && TotalUtil(cs, 0, 2) <= 1.0 && TotalUtil(cs, 1, 2) <= 1.0
            && TotalUtil([ShortTuned()], 0, 2) <= 1.0 && TotalUtil([ShortTuned()], 1, 2) <= 1.0
  {
    hide TotalDbf, TotalUtil;
    var a, b := ShortTuned(), LongTuned();
    assert ValidTuned(a, 2) && ValidTuned(b, 2);
    PairSums(a, b, -1, 1_500_000, 2);
    PairSums(a, b, 0, 0, 2);
    assert TaskUtil(a.task, 0, 2) == 0.1 && TaskUtil(b.task, 0, 2) == 0.375;
    assert TaskUtil(a.task, 1, 2) == 0.1 && TaskUtil(b.task, 1, 2) == 0.0;
    assert Dbf(a, -1, 1_500_000, 2) == 150_000 && Dbf(b, -1, 1_500_000, 2) == 1_500_000;
  }

  lemma CapPasses(cs: seq<Tuned>)
    requires cs == [ShortTuned(), LongTuned()] || cs == [ShortTuned()]
    ensures AllValid(cs, 2) && PassesUntuned(cs, 2)
  {
    hide TotalDbf, TotalUtil, UncappedLMax;
    CapWitnessValues();
    CapWitnessTested(cs, 0);
    forall l | 0 <= l <= LENGTH_CAP ensures TotalDbf(cs, 0, l, 2) <= l && TotalDbf(cs, -1, l, 2) <= l {
      CapWitnessTested(cs, l);
    }
    assert Clampable(cs, 0);
  }

  /** The cap on the tested length hides violations beyond it: two tasks are accepted although they
      demand more than 1 500 000 units in an interval of that length. */
  method CapHidesViolation() returns (core: Core)
    ensures fresh(core) && core.levels == 2 && core.Valid() && AllValid(Snap(core.Assigned()), 2)
    ensures AnyAbove(Snap(core.Assigned()), 0)
    ensures TotalDbf(Snap(core.Assigned()), -1, 1_500_000, 2) > 1_500_000 && !Fits(Snap(core.Assigned()), -1, 2)
  {
    hide TotalDbf, TotalUtil, LMax, Settled, CoreOk, PassesUntuned, Starts;
    CapWitness();
    CapPasses([ShortTuned()]);
    CapPasses([ShortTuned(), LongTuned()]);
    CapWitnessValues();
    assert [ShortTuned(), LongTuned()][0].task.crit > 0;
    core := PlaceBoth(SHORT, LONG, 2);
  }

  // ---- a refusal that other deadlines would have avoided ------------------------------------

  const A: TaskSpec := TaskSpec(1, 3, 2, 1, [1, 1])
  const B: TaskSpec := TaskSpec(2, 6, 3, 1, [1, 2])

  /** The two tasks with deadlines `x` and `y` at level 0. */
  function Both(x: int, y: int): seq<Tuned> {
    [Tuned(A, [x, 2]), Tuned(B, [y, 3])]
  }

  predicate Range(x: int, y: int) {
    1 <= x <= 2 && 1 <= y <= 3
  }

  lemma BothValid(x: int, y: int)
    requires Range(x, y)
    ensures AllValid(Both(x, y), 2) && AllReady(Both(x, y), 0, 2)
    ensures ValidTuned(Tuned(A, [x, 2]), 2) && ValidTuned(Tuned(B, [y, 3]), 2)
  {
  }

  lemma BothSums(x: int, y: int, l: int)
    requires Range(x, y)
    ensures AllValid(Both(x, y), 2)
    ensures TotalDbf(Both(x, y), 0, l, 2) == Dbf(Tuned(A, [x, 2]), 0, l, 2) + Dbf(Tuned(B, [y, 3]), 0, l, 2)
    ensures TotalDbf(Both(x, y), -1, l, 2) == Dbf(Tuned(A, [x, 2]), -1, l, 2) + Dbf(Tuned(B, [y, 3]), -1, l, 2)
  {
    hide Dbf, TotalDbf, TotalUtil;
    BothValid(x, y);
    PairSums(Tuned(A, [x, 2]), Tuned(B, [y, 3]), 0, l, 2);
    PairSums(Tuned(A, [x, 2]), Tuned(B, [y, 3]), -1, l, 2);
  }

  /** Utilization of the two tasks: two thirds at level 1, so the bound is at least 2. */
  lemma BothBound(x: int, y: int)
    requires Range(x, y)
    ensures AllValid(Both(x, y), 2) && LMax(Both(x, y), 0, LENGTH_CAP, 2) >= 2
  {
    hide TotalUtil, TotalDbf, LcmAll, MaxOf, DensityBound;
    BothValid(x, y);
    var cs := Both(x, y);
    PairSums(cs[0], cs[1], 0, 0, 2);
    assert TotalUtil(cs, 1, 2) == 1.0 / 3.0 + 2.0 / 6.0;
    BothAbove(x, y);
    var slacks, deadlines := Slacks(cs, 1, true, 2), Deadlines(cs, 1, true, 2);
    assert slacks[1] == 6 - (3 - y) && deadlines[0] == 2 - x;
    assert MaxOf(slacks) >= 4 && MaxOf(deadlines) >= 0;
    TwiceSlack(MaxOf(slacks));
    var ps := Periods(cs, 2);
    assert ps[1] == 6 && ps[0] == 3;
    SixDivides(ps);
    assert ModeLMax(cs, 1, true, 2) >= 6.0;
  }

  lemma BothAbove(x: int, y: int)
    ensures Above(Both(x, y), 0) == Both(x, y) && Above(Both(x, y), 1) == Both(x, y)
  {
    var cs := Both(x, y);
    assert cs[1..] == [cs[1]] && cs[1..][1..] == [];
    assert Above(cs[1..], 0) == [cs[1]] && Above(cs[1..], 1) == [cs[1]];
  }

  lemma TwiceSlack(s: int)
    ensures DensityBound(2.0 / 3.0, s) == 2.0 * s as real
  {
  }

  lemma SixDivides(ps: seq<nat>)
    requires |ps| == 2 && ps[0] == 3 && ps[1] == 6
    ensures LcmAll(ps) >= 6
  {
    LcmFromIsLeast(1, ps, 0);
    DividesAtMost(6, LcmAll(ps));
  }

  // The demand along the course of the search.

  lemma AtTwoThree()
    ensures AllValid(Both(2, 3), 2) && TotalDbf(Both(2, 3), 0, 0, 2) == 1 && TotalDbf(Both(2, 3), -1, 0, 2) == 0
    ensures Gain(Both(2, 3)[0], 0, 0, 2) == 0 && Gain(Both(2, 3)[1], 0, 0, 2) == 1
  {
    BothSums(2, 3, 0);
    hide TotalDbf;
    BothValid(2, 3);
  }

  lemma AtTwoTwo(l: int)
    requires 0 <= l <= 1
    ensures AllValid(Both(2, 2), 2) && TotalDbf(Both(2, 2), 0, l, 2) == (if l == 0 then 0 else 2)
    ensures TotalDbf(Both(2, 2), -1, l, 2) == 0
  {
    BothSums(2, 2, l);
    hide TotalDbf;
    BothValid(2, 2);
  }

  lemma DemandOfA(l: int)
    requires 0 <= l <= 1
    ensures ValidTuned(Tuned(A, [2, 2]), 2) && Dbf(Tuned(A, [2, 2]), 0, l, 2) == l
  {
  }

  lemma DemandOfB(l: int)
    requires 0 <= l <= 1
    ensures ValidTuned(Tuned(B, [2, 3]), 2) && Dbf(Tuned(B, [2, 3]), 0, l, 2) == l
  {
  }

  lemma GainOf(c: Tuned, a: int, b: int)
    requires ValidTuned(c, 2) && Dbf(c, 0, 0, 2) == a && Dbf(c, 0, 1, 2) == b
    ensures Gain(c, 0, 1, 2) == b - a
  {
  }

  lemma GainsTwoTwo()
    ensures ValidTuned(Both(2, 2)[0], 2) && Gain(Both(2, 2)[0], 0, 1, 2) == 1
    ensures ValidTuned(Both(2, 2)[1], 2) && Gain(Both(2, 2)[1], 0, 1, 2) == 1
  {
    hide Dbf, Gain, ValidTuned;
    DemandOfA(0);
    DemandOfA(1);
    DemandOfB(0);
    DemandOfB(1);
    GainOf(Tuned(A, [2, 2]), 0, 1);
    GainOf(Tuned(B, [2, 3]), 0, 1);
  }

  lemma SetFirst(x: int, y: int, v: int)
    ensures Both(x, y)[0 := WithDeadline(Both(x, y)[0], 0, v)] == Both(v, y)
  {
    assert [x, 2][0 := v] == [v, 2];
  }

  lemma SetSecond(x: int, y: int, v: int)
    ensures Both(x, y)[1 := WithDeadline(Both(x, y)[1], 0, v)] == Both(x, v)
  {
    assert [y, 3][0 := v] == [v, 3];
  }

  lemma AtOneTwo(l: int)
    requires 0 <= l <= 2
    ensures AllValid(Both(1, 2), 2) && TotalDbf(Both(1, 2), 0, l, 2) == (if l == 2 then 3 else l)
    ensures TotalDbf(Both(1, 2), -1, l, 2) == l
  {
    BothSums(1, 2, l);
    hide TotalDbf;
    BothValid(1, 2);
  }

  lemma AtOneOne(l: int)
    requires 0 <= l <= 1
    ensures AllValid(Both(1, 1), 2) && TotalDbf(Both(1, 1), 0, l, 2) == 0
    ensures TotalDbf(Both(1, 1), -1, l, 2) == 2 * l
  {
    BothSums(1, 1, l);
    hide TotalDbf;
    BothValid(1, 1);
  }

  lemma BadPair(x: int, y: int, l: int)
    requires Range(x, y) && 0 <= l <= 2 && AllValid(Both(x, y), 2)
    requires forall k :: 0 <= k < l ==> TotalDbf(Both(x, y), 0, k, 2) <= k && TotalDbf(Both(x, y), -1, k, 2) <= k
    requires TotalDbf(Both(x, y), -1, l, 2) <= l < TotalDbf(Both(x, y), 0, l, 2)
    ensures FirstBad(Both(x, y), 0, l, false, 2)
  {
    hide TotalDbf, LMax, Both;
    BothBound(x, y);
  }

  lemma BadSteady(x: int, y: int, l: int)
    requires Range(x, y) && 0 <= l <= 2 && AllValid(Both(x, y), 2)
    requires forall k :: 0 <= k < l ==> TotalDbf(Both(x, y), 0, k, 2) <= k && TotalDbf(Both(x, y), -1, k, 2) <= k
    requires TotalDbf(Both(x, y), -1, l, 2) > l
    ensures FirstBad(Both(x, y), 0, l, true, 2)
  {
    hide TotalDbf, LMax, Both;
    BothBound(x, y);
  }

  /** First the deadline of the second task is lowered, because only that helps at length 0. */
  lemma FirstMove()
    ensures Moves(State(Both(2, 3), [0, 1], [], {}), State(Both(2, 2), [0, 1], [1], {}), 0, 2)
  {
    hide FirstBad, Gain, TotalDbf;
    AtTwoThree();
    BadPair(2, 3, 0);
    var s := State(Both(2, 3), [0, 1], [], {});
    SetSecond(2, 3, 2);
    assert IsTarget(s, 1, 0, 0, 2);
    assert [] + [1] == [1];
    assert Lowered(s, 1, 0, 2) == State(Both(2, 2), [0, 1], [1], {});
  }

  /** Then that of the first, although lowering the second again would have helped as much. */
  lemma SecondMove()
    ensures Moves(State(Both(2, 2), [0, 1], [1], {}), State(Both(1, 2), [1], [1, 0], {}), 0, 2)
  {
    hide FirstBad, Gain, TotalDbf;
    AtTwoTwo(0);
    AtTwoTwo(1);
    GainsTwoTwo();
    BadPair(2, 2, 1);
    var s := State(Both(2, 2), [0, 1], [1], {});
    SetFirst(2, 2, 1);
    assert IsTarget(s, 0, 0, 1, 2);
    assert [1] + [0] == [1, 0] && [0, 1][1..] == [1];
    assert Lowered(s, 0, 0, 2) == State(Both(1, 2), [1], [1, 0], {});
  }

  /** The second task is lowered to its execution time, */
  lemma ThirdMove()
    ensures Moves(State(Both(1, 2), [1], [1, 0], {}), State(Both(1, 1), [], [1, 0, 1], {}), 0, 2)
  {
    hide FirstBad, Gain, TotalDbf;
    AtOneTwo(0);
    AtOneTwo(1);
    AtOneTwo(2);
    BadPair(1, 2, 2);
    var s := State(Both(1, 2), [1], [1, 0], {});
    SetSecond(1, 2, 1);
    assert IsTarget(s, 0, 0, 2, 2);
    assert [1, 0] + [1] == [1, 0, 1] && [1][1..] == [];
    assert Lowered(s, 0, 0, 2) == State(Both(1, 1), [], [1, 0, 1], {});
  }

  /** which the steady state does not allow, so it is given back, */
  lemma FourthMove()
    ensures Moves(State(Both(1, 1), [], [1, 0, 1], {}), State(Both(1, 2), [], [1, 0], {1}), 0, 2)
  {
    hide FirstBad, TotalDbf;
    AtOneOne(0);
    AtOneOne(1);
    BadSteady(1, 1, 1);
    var s := State(Both(1, 1), [], [1, 0, 1], {});
    SetSecond(1, 1, 2);
    assert [1, 0, 1][..2] == [1, 0] && [] + [1] == [1] && [1][1..] == [] && {} + {1} == {1};
    assert GivenBack(s, 0, 2) == State(Both(1, 2), [], [1, 0], {1});
  }

  /** and now no candidate is left. */
  lemma NoMove()
    ensures StuckPair(State(Both(1, 2), [], [1, 0], {1}), 0, 2)
  {
    hide FirstBad, TotalDbf;
    AtOneTwo(0);
    AtOneTwo(1);
    AtOneTwo(2);
    BadPair(1, 2, 2);
  }

  lemma BothAt()
    ensures AboveAt(Both(2, 3), 0) == [0, 1]
  {
    var cs := Both(2, 3);
    hide Distinct;
    assert cs[..1] == [cs[0]] && cs[..1][..0] == [];
    assert AboveAt([], 0) == [];
    assert AboveAt(cs[..1], 0) == [0];
  }

  lemma BothRoomy()
    ensures Roomy(Both(2, 3), [0, 1], 0) == [0, 1]
  {
    var cs := Both(2, 3);
    hide Distinct;
    assert [0, 1][..1] == [0] && [0][..0] == [];
    assert HasRoom(cs[0], 0) && HasRoom(cs[1], 0);
    assert Roomy(cs, [], 0) == [];
    assert Roomy(cs, [0], 0) == [0];
  }

  lemma SearchStarts()
    ensures HasPair(Both(2, 3), 0) && StartOf(Both(2, 3), 0) == State(Both(2, 3), [0, 1], [], {})
    ensures Clampable(Both(2, 3), 0) && AnyAbove(Both(2, 3), 0)
  {
    hide ClampThese, AboveAt, Roomy;
    BothAt();
    BothRoomy();
    SetFirst(2, 3, 2);
    SetSecond(2, 3, 3);
    assert ClampAll(Both(2, 3), 0) == Both(2, 3);
    assert Both(2, 3)[0].task.crit > 0;
  }

  /** The search over the two tasks gets stuck after a reduction has been given back. */
  lemma GetsStuck()
    ensures Fails(Both(2, 3), 0, 2)
  {
    hide Moves, Clampable, AnyAbove, StartOf, HasPair, StuckPair;
    BothValid(2, 3);
    SearchStarts();
    FirstMove();
    SecondMove();
    ThirdMove();
    FourthMove();
    NoMove();
    var start := StartOf(Both(2, 3), 0);
    ReachedAtOnce(start, 0, 2);
    ReachedNext(start, start, 0, State(Both(2, 2), [0, 1], [1], {}), 0, 2);
    ReachedNext(start, State(Both(2, 2), [0, 1], [1], {}), 1, State(Both(1, 2), [1], [1, 0], {}), 0, 2);
    ReachedNext(start, State(Both(1, 2), [1], [1, 0], {}), 2, State(Both(1, 1), [], [1, 0, 1], {}), 0, 2);
    ReachedNext(start, State(Both(1, 1), [], [1, 0, 1], {}), 3, State(Both(1, 2), [], [1, 0], {1}), 0, 2);
    hide ReachedIn, Both;
    assert Stuck(State(Both(1, 2), [], [1, 0], {1}), 0, 2);
  }

  /** With deadlines 2 and 1 at level 0, however, the two tasks fit every length. */
  lemma OthersFit()
    ensures AllValid(Both(2, 1), 2) && Fits(Both(2, 1), 0, 2) && Fits(Both(2, 1), -1, 2)
    ensures Alternative(Both(2, 3), Both(2, 1), 0, 2) && Settled(Both(2, 1), 2)
  {
    BothValid(2, 1);
    BothValid(2, 3);
    forall l | 0 <= l ensures TotalDbf(Both(2, 1), 0, l, 2) <= l && TotalDbf(Both(2, 1), -1, l, 2) <= l {
      OtherDemand(l);
    }
    OtherSettled();
  }

  lemma OtherDemand(l: int)
    requires 0 <= l
    ensures AllValid(Both(2, 1), 2) && TotalDbf(Both(2, 1), 0, l, 2) <= l && TotalDbf(Both(2, 1), -1, l, 2) <= l
  {
    BothSums(2, 1, l);
    hide TotalDbf;
    BothValid(2, 1);
  }

  lemma OtherSettled()
    requires AllValid(Both(2, 1), 2) && Fits(Both(2, 1), 0, 2) && Fits(Both(2, 1), -1, 2)
    ensures Settled(Both(2, 1), 2)
  {
    hide TotalDbf, LMax, TotalUtil;
    BothValid(2, 1);
    var cs := Both(2, 1);
    BothUtil(2, 1);
    forall m | 0 <= m < 2 ensures PairSettled(cs, m, 2) && TotalUtil(cs, m, 2) <= 1.0 {
      assert m == 0 || m == 1;
    }
  }

  lemma BothUtil(x: int, y: int)
    requires Range(x, y)
    ensures AllValid(Both(x, y), 2) && TotalUtil(Both(x, y), 0, 2) == 0.5 && TotalUtil(Both(x, y), 1, 2) == 2.0 / 3.0
  {
    hide TotalDbf, TotalUtil, Dbf;
    BothValid(x, y);
    PairSums(Both(x, y)[0], Both(x, y)[1], 0, 0, 2);
    PairSums(Both(x, y)[0], Both(x, y)[1], -1, 0, 2);
  }

  lemma AloneUntuned()
    ensures ValidSpec(A, 2) && ValidSpec(B, 2) && A.id != B.id
    ensures Starts([A], 2) == [Tuned(A, [2, 2])] && Starts([A, B], 2) == Both(2, 3)
    ensures AllValid(Starts([A], 2), 2) && PassesUntuned(Starts([A], 2), 2)
    ensures TotalUtil(Starts([A], 2), 0, 2) == 1.0 / 3.0 && TotalUtil(Starts([A], 2), 1, 2) == 1.0 / 3.0
  {
    hide TotalDbf, TotalUtil, LMax, Dbf;
    StartsAre(A, B);
    BothValid(2, 3);
    var a := Tuned(A, [2, 2]);
    assert ValidTuned(a, 2);
    PairSums(a, a, -1, 0, 2);
    PairSums(a, a, 0, 0, 2);
    forall l | 0 <= l ensures TotalDbf([a], 0, l, 2) <= l && TotalDbf([a], -1, l, 2) <= l {
      AloneDemand(l);
    }
    assert Clampable([a], 0);
  }

  lemma AloneDemand(l: int)
    requires 0 <= l
    ensures AllValid([Tuned(A, [2, 2])], 2)
    ensures TotalDbf([Tuned(A, [2, 2])], 0, l, 2) <= l && TotalDbf([Tuned(A, [2, 2])], -1, l, 2) <= l
  {
    hide TotalDbf, TotalUtil;
    var a := Tuned(A, [2, 2]);
    assert ValidTuned(a, 2);
    PairSums(a, a, -1, l, 2);
    PairSums(a, a, 0, l, 2);
  }

  /** A core that holds the first task refuses the second. */
  lemma SecondRefused(utilization: seq<real>)
    requires |utilization| == 2 && utilization[1] == 1.0 / 3.0
    ensures Refused([A, B], B, utilization, 2)
  {
    hide Passes, Fails, DownTo;
    AloneUntuned();
    BothValid(2, 3);
    NotYet([A, B], B, utilization, 2);
    PassTrivially(Both(2, 3), 1, 2);
    assert !Overload(B, utilization, 1, 2);
    OneLevelDown(Both(2, 3), Both(2, 3), Both(2, 3), 1, B, utilization, 2);
    GetsStuck();
    RefusesHere([A, B], Both(2, 3), 0, B, utilization, 2);
  }

  /** The greedy search can refuse tasks that other deadlines would have let share the core: two tasks
      that together fit every length with other deadlines are not placed together. */
  method RefusesThoughFitting() returns (core: Core, second: Task, other: seq<Tuned>)
    ensures fresh(core) && core.levels == 2 && core.Valid() && SpecsOf(core.Assigned()) == [A] && second.spec == B
    ensures Refused(SpecsOf(core.Assigned() + [second]), B, core.utilization, 2)
    ensures SnapOf(SpecsOf(core.Assigned() + [second]), other) && AllValid(other, 2) && Settled(other, 2)
    ensures Fits(other, 0, 2) && Fits(other, -1, 2)
  {
    hide *;
    AloneUntuned();
    OthersFit();
    core := new Core(0, 0, 2);
    var first := new Task(A);
    second := new Task(B);
    core.CoreFacts();
    FreshTask([], first, 2);
    FreshTask([first], second, 2);
    SpecsAre(first, second);
    assert core.Assigned() == [];
    var ok := core.TuneSystem(first, Primary, true);
    core.CoreFacts();
    assert core.Assigned() == [first];
    AloneUtil(core);
    SecondRefused(core.utilization);
    ok := core.TuneSystem(second, Primary, true);
    core.CoreFacts();
    other := Both(2, 1);
    BothSnap();
  }

  lemma AloneUtil(core: Core)
    requires core.Valid() && core.levels == 2 && SpecsOf(core.Assigned()) == [A]
    ensures |core.utilization| == 2 && core.utilization[1] == 1.0 / 3.0
  {
    hide TotalUtil, Settled;
    AloneUntuned();
    var cs := Snap(core.Assigned());
    assert cs[0].task == SpecsOf(core.Assigned())[0] == A;
    SameTasksUtil(cs, Starts([A], 2), 1, 2);
  }

  lemma BothSnap()
    ensures SnapOf([A, B], Both(2, 1))
  {
  }
}
