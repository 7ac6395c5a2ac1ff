/** The largest interval length the tuner tests, and why testing up to it settles all lengths. */
module DemandBound {
  import opened Numbers
  import opened Demand

  const LENGTH_CAP := 1_000_000

  function Periods(cs: seq<Tuned>, levels: nat): (ps: seq<nat>)
    requires AllValid(cs, levels)
    ensures |ps| == |cs| && AllPositive(ps)
    ensures forall i :: 0 <= i < |cs| ==> ps[i] == cs[i].task.period
  {
    seq(|cs|, i requires 0 <= i < |cs| => cs[i].task.period)
  }

  function MaxOf(s: seq<int>): (r: int)
    requires s != []
    ensures r in s && forall i :: 0 <= i < |s| ==> s[i] <= r
  {
    if |s| == 1 then s[0]
    else
      var rest := MaxOf(s[1..]);
      assert forall i :: 0 < i < |s| ==> s[i] == s[1..][i - 1];
      Max(s[0], rest)
  }

  function ModeDeadline(c: Tuned, mode: nat, hiMode: bool, levels: nat): int
    requires ValidTuned(c, levels) && mode < levels && (hiMode ==> mode > 0)
  {
    if hiMode then c.vd[mode] - c.vd[mode - 1] else c.vd[mode]
  }

  function Deadlines(cs: seq<Tuned>, mode: nat, hiMode: bool, levels: nat): seq<int>
    requires AllValid(cs, levels) && mode < levels && (hiMode ==> mode > 0)
  {
    seq(|cs|, i requires 0 <= i < |cs| => ModeDeadline(cs[i], mode, hiMode, levels))
  }

  function Slacks(cs: seq<Tuned>, mode: nat, hiMode: bool, levels: nat): seq<int>
    requires AllValid(cs, levels) && mode < levels && (hiMode ==> mode > 0)
  {
    seq(|cs|, i requires 0 <= i < |cs| =>
      cs[i].task.period - ModeDeadline(cs[i], mode, hiMode, levels))
  }

  function DensityBound(util: real, slack: int): real
    requires util < 1.0
  {
    (util / (1.0 - util)) * slack as real
  }

  /** Bound for one mode: the smaller of the hyperperiod bound and the density bound. */
  function ModeLMax(cs: seq<Tuned>, mode: nat, hiMode: bool, levels: nat): real
    requires AllValid(cs, levels) && mode < levels && (hiMode ==> mode > 0)
  {
    if cs == [] then 0.0
    else
      var util := TotalUtil(cs, mode, levels);
      var hyper := LcmAll(Periods(cs, levels)) + MaxOf(Deadlines(cs, mode, hiMode, levels));
      if util < 1.0 then
        var density := DensityBound(util, MaxOf(Slacks(cs, mode, hiMode, levels)));
        if density < hyper as real then density else hyper as real
      else
        hyper as real
  }

  function Truncate(x: real): int {
    if x >= 0.0 then x.Floor else -((-x).Floor)
  }

  function UncappedLMax(cs: seq<Tuned>, m: nat, levels: nat): int
    requires AllValid(cs, levels) && m + 1 < levels
  {
    AboveMembers(cs, m);
    AboveMembers(cs, m + 1);
    var lo := ModeLMax(Above(cs, m), m, false, levels);
    var hi := ModeLMax(Above(cs, m + 1), m + 1, true, levels);
    Truncate(if lo >= hi then lo else hi)
  }

  function LMax(cs: seq<Tuned>, m: nat, cap: int, levels: nat): int
    requires AllValid(cs, levels) && m + 1 < levels
  {
    if cap > 0 then Min(cap, UncappedLMax(cs, m, levels)) else UncappedLMax(cs, m, levels)
  }

  // ---- the test and what it decides ---------------------------------------------------------

  predicate PassesUpTo(cs: seq<Tuned>, m: int, bound: int, levels: nat)
    requires AllValid(cs, levels) && ValidPairIndex(m, levels)
  {
    forall l :: 0 <= l <= bound ==> TotalDbf(cs, m, l, levels) <= l
  }

  ghost predicate Fits(cs: seq<Tuned>, m: int, levels: nat)
    requires AllValid(cs, levels) && ValidPairIndex(m, levels)
  {
    forall l :: 0 <= l ==> TotalDbf(cs, m, l, levels) <= l
  }

  predicate AllAbove(cs: seq<Tuned>, m: int) {
    forall i :: 0 <= i < |cs| ==> cs[i].task.crit > m
  }

  lemma RealDensity(p: int, w: int, dbf: int, span: int, slack: int, u: real, y: real)
    requires 0 < p && 0 <= w && 0 <= span
    requires p * dbf <= w * span && span <= slack
    requires u == w as real / p as real && y == slack as real
    ensures dbf as real <= u * y
  {
    MulWeak(w, span, slack);
    assert u * p as real == w as real;
    assert p as real * dbf as real <= w as real * y;
    assert p as real * (u * y) == w as real * y;
    RealCancel(p as real, dbf as real, u * y);
  }

  lemma RealCancel(p: real, a: real, b: real)
    requires p > 0.0 && p * a <= p * b
    ensures a <= b
  {
    if a > b {
      RealMulStrict(p, b, a);
    }
  }

  lemma RealMulStrict(p: real, a: real, b: real)
    requires p > 0.0 && a < b
    ensures p * a < p * b
  {
    assert p * b - p * a == p * (b - a);
  }

  lemma TaskDensity(c: Tuned, m: int, l: int, slack: int, levels: nat, u: real, y: real)
    requires ValidTuned(c, levels) && ValidPairIndex(m, levels) && PairReady(c, m, levels)
    requires c.task.crit > m && 0 <= l
    requires c.task.period - Offset(c, m, levels) <= slack
    requires u == TaskUtil(c.task, m + 1, levels) && y == (l + slack) as real
    ensures Dbf(c, m, l, levels) as real <= u * y
  {
    var p, o := c.task.period, Offset(c, m, levels);
    var d := Dbf(c, m, l, levels);
    DbfDensity(c, m, l, levels);
    OffsetBounds(c, m, levels);
    RealDensity(p, c.task.wcet[m + 1], d, l + (p - o), l + slack, u, y);
  }

  lemma RealDistribute(u: real, v: real, w: real, y: real)
    requires w == u + v
    ensures w * y == u * y + v * y
  {
  }

  /** Summing per-task lines gives a line whose slope is the utilization. */
  lemma {:induction false} SumOfLines(cs: seq<Tuned>, m: int, l: int, levels: nat, y: real)
    requires AllValid(cs, levels) && ValidPairIndex(m, levels)
    requires forall i :: 0 <= i < |cs| ==>
               Dbf(cs[i], m, l, levels) as real <= TaskUtil(cs[i].task, m + 1, levels) * y
    ensures TotalDbf(cs, m, l, levels) as real <= TotalUtil(cs, m + 1, levels) * y
  {
    hide Dbf, TaskUtil;
    if cs != [] {
      SumOfLines(cs[1..], m, l, levels, y);
      var u, v := TaskUtil(cs[0].task, m + 1, levels), TotalUtil(cs[1..], m + 1, levels);
      RealDistribute(u, v, u + v, y);
    }
  }

  /** The summed demand lies below a line whose slope is the utilization. */
  lemma TotalDensity(cs: seq<Tuned>, m: int, l: int, slack: int, levels: nat, y: real)
    requires AllValid(cs, levels) && ValidPairIndex(m, levels) && AllReady(cs, m, levels)
    requires AllAbove(cs, m) && 0 <= l
    requires forall i :: 0 <= i < |cs| ==> cs[i].task.period - Offset(cs[i], m, levels) <= slack
    requires y == (l + slack) as real
    ensures TotalDbf(cs, m, l, levels) as real <= TotalUtil(cs, m + 1, levels) * y
  {
    hide Dbf, TaskUtil, TotalUtil, TotalDbf;
    forall i | 0 <= i < |cs|
      ensures Dbf(cs[i], m, l, levels) as real <= TaskUtil(cs[i].task, m + 1, levels) * y
    {
      TaskDensity(cs[i], m, l, slack, levels, TaskUtil(cs[i].task, m + 1, levels), y);
    }
    SumOfLines(cs, m, l, levels, y);
  }

  lemma TaskPeriodic(c: Tuned, m: int, l: int, h: nat, levels: nat, u: real, y: real)
    requires ValidTuned(c, levels) && ValidPairIndex(m, levels) && PairReady(c, m, levels)
    requires c.task.crit > m && 0 <= l && Divides(c.task.period, h)
    requires u == TaskUtil(c.task, m + 1, levels) && y == h as real
    ensures Dbf(c, m, l + h, levels) as real == Dbf(c, m, l, levels) as real + u * y
  {
    var p, w := c.task.period, c.task.wcet[m + 1];
    var j := DividesProduct(p, h);
    QuotientMonotone(p, 0, 0, j, 0);
    DbfPeriodic(c, m, l, j, levels);
    WholePeriods(p, w, j, h, u, y, j * w);
  }

  lemma {:induction false} SumOfSteps(cs: seq<Tuned>, m: int, l: int, l': int, levels: nat, y: real)
    requires AllValid(cs, levels) && ValidPairIndex(m, levels)
    requires forall i :: 0 <= i < |cs| ==>
               Dbf(cs[i], m, l', levels) as real
               == Dbf(cs[i], m, l, levels) as real + TaskUtil(cs[i].task, m + 1, levels) * y
    ensures TotalDbf(cs, m, l', levels) as real
         == TotalDbf(cs, m, l, levels) as real + TotalUtil(cs, m + 1, levels) * y
  {
    hide Dbf, TaskUtil;
    if cs != [] {
      SumOfSteps(cs[1..], m, l, l', levels, y);
      var u, v := TaskUtil(cs[0].task, m + 1, levels), TotalUtil(cs[1..], m + 1, levels);
      RealDistribute(u, v, u + v, y);
    }
  }

  /** One common multiple of the periods adds the utilization times its length. */
  lemma TotalPeriodic(cs: seq<Tuned>, m: int, l: int, h: nat, levels: nat, y: real)
    requires AllValid(cs, levels) && ValidPairIndex(m, levels) && AllReady(cs, m, levels)
    requires AllAbove(cs, m) && 0 <= l
    requires forall i :: 0 <= i < |cs| ==> Divides(cs[i].task.period, h)
    requires y == h as real
    ensures TotalDbf(cs, m, l + h, levels) as real
         == TotalDbf(cs, m, l, levels) as real + TotalUtil(cs, m + 1, levels) * y
  {
    hide Dbf, TaskUtil, TotalUtil, TotalDbf;
    forall i | 0 <= i < |cs|
      ensures Dbf(cs[i], m, l + h, levels) as real
           == Dbf(cs[i], m, l, levels) as real + TaskUtil(cs[i].task, m + 1, levels) * y
    {
      TaskPeriodic(cs[i], m, l, h, levels, TaskUtil(cs[i].task, m + 1, levels), y);
    }
    SumOfSteps(cs, m, l, l + h, levels, y);
  }

  lemma WholePeriods(p: int, w: int, j: int, h: int, u: real, y: real, jw: int)
    requires 0 < p && h == p * j
    requires u == w as real / p as real && y == h as real && jw == j * w
    ensures u * y == jw as real
  {
    assert u * p as real == w as real;
    assert y == p as real * j as real;
    assert u * (p as real * j as real) == (u * p as real) * j as real;
    assert jw as real == j as real * w as real;
  }

  lemma DensityReached(util: real, slack: int, l: int, y: real, demand: int)
    requires 0.0 <= util < 1.0
    requires l as real >= DensityBound(util, slack)
    requires y == (l + slack) as real && demand as real <= util * y
    ensures demand <= l
  {
    DensityReachedReal(util, slack as real, l as real, y, demand as real);
  }

  lemma DensityReachedReal(util: real, slack: real, l: real, y: real, demand: real)
    requires 0.0 <= util < 1.0
    requires l >= (util / (1.0 - util)) * slack
    requires y == l + slack && demand <= util * y
    ensures demand <= l
  {
    var r := util / (1.0 - util);
    assert (1.0 - util) * r == util;
    RealMulWeak(1.0 - util, r * slack, l);
    assert (1.0 - util) * (r * slack) == util * slack;
    assert util * y == util * l + util * slack;
    assert (1.0 - util) * l == l - util * l;
  }

  lemma RealMulWeak(p: real, a: real, b: real)
    requires p >= 0.0 && a <= b
    ensures p * a <= p * b
  {
    assert p * b - p * a == p * (b - a);
  }

  lemma TruncateBelow(x: real, l: int)
    requires Truncate(x) < l && 0 <= l
    ensures x <= l as real
  {
  }

  /** The density bound has been passed at `l`. */
  predicate BeyondDensity(util: real, slack: int, l: int) {
    util < 1.0 && l as real >= DensityBound(util, slack)
  }

  /** Past the bound of a mode, either the density bound or the hyperperiod bound has been passed. */
  lemma BeyondBound(cs: seq<Tuned>, mode: nat, hiMode: bool, bound: int, l: int, levels: nat)
    requires AllValid(cs, levels) && mode < levels && (hiMode ==> mode > 0)
    requires cs != [] && bound < l && 0 <= l
    requires Truncate(ModeLMax(cs, mode, hiMode, levels)) <= bound
    ensures BeyondDensity(TotalUtil(cs, mode, levels), MaxOf(Slacks(cs, mode, hiMode, levels)), l)
         || l >= LcmAll(Periods(cs, levels)) + MaxOf(Deadlines(cs, mode, hiMode, levels))
  {
    hide DensityBound, TotalUtil, MaxOf, LcmAll, Slacks, Deadlines, Periods;
    var x := ModeLMax(cs, mode, hiMode, levels);
    TruncateBelow(x, l);
  }

  /** Soundness of the bound of one mode, for any tested length that covers it. */
  lemma ModeTestSuffices(cs: seq<Tuned>, m: int, bound: int, l: int, levels: nat)
    requires AllValid(cs, levels) && ValidPairIndex(m, levels) && AllReady(cs, m, levels)
    requires AllAbove(cs, m) && 0 <= l
    requires TotalUtil(cs, m + 1, levels) <= 1.0
    requires Truncate(ModeLMax(cs, m + 1, m >= 0, levels)) <= bound
    requires PassesUpTo(cs, m, bound, levels)
    ensures TotalDbf(cs, m, l, levels) <= l
    decreases l
  {
    if l > bound && cs != [] {
      hide TotalUtil, TotalDbf, ModeLMax, MaxOf, Slacks, Deadlines, BeyondDensity, LcmAll, Periods;
      BeyondBound(cs, m + 1, m >= 0, bound, l, levels);
      if BeyondDensity(TotalUtil(cs, m + 1, levels), MaxOf(Slacks(cs, m + 1, m >= 0, levels)), l) {
        DensityStep(cs, m, l, levels);
      } else {
        var h := LcmAll(Periods(cs, levels));
        HyperperiodFits(cs, m, l, levels);
        ModeTestSuffices(cs, m, bound, l - h, levels);
        HyperperiodStep(cs, m, l - h, h, levels);
      }
    }
  }

  lemma SlackBoundsOffsets(cs: seq<Tuned>, m: int, levels: nat)
    requires AllValid(cs, levels) && ValidPairIndex(m, levels) && cs != []
    ensures var slacks := Slacks(cs, m + 1, m >= 0, levels);
            |slacks| == |cs| &&
            forall i :: 0 <= i < |cs| ==> cs[i].task.period - Offset(cs[i], m, levels) <= MaxOf(slacks)
  {
    var slacks := Slacks(cs, m + 1, m >= 0, levels);
    forall i | 0 <= i < |cs| ensures cs[i].task.period - Offset(cs[i], m, levels) <= MaxOf(slacks) {
      assert slacks[i] == cs[i].task.period - Offset(cs[i], m, levels);
    }
  }

  lemma DensityStep(cs: seq<Tuned>, m: int, l: int, levels: nat)
    requires AllValid(cs, levels) && ValidPairIndex(m, levels) && AllReady(cs, m, levels)
    requires AllAbove(cs, m) && cs != [] && 0 <= l
    requires BeyondDensity(TotalUtil(cs, m + 1, levels), MaxOf(Slacks(cs, m + 1, m >= 0, levels)), l)
    ensures TotalDbf(cs, m, l, levels) <= l
  {
    hide TotalUtil, TotalDbf, DensityBound, Offset, Slacks, MaxOf;
    var util, slack := TotalUtil(cs, m + 1, levels), MaxOf(Slacks(cs, m + 1, m >= 0, levels));
    SlackBoundsOffsets(cs, m, levels);
    var y := (l + slack) as real;
    TotalUtilBounds(cs, m + 1, levels);
    TotalDensity(cs, m, l, slack, levels, y);
    DensityReached(util, slack, l, y, TotalDbf(cs, m, l, levels));
  }

  lemma HyperperiodFits(cs: seq<Tuned>, m: int, l: int, levels: nat)
    requires AllValid(cs, levels) && ValidPairIndex(m, levels) && AllReady(cs, m, levels)
    requires AllAbove(cs, m) && cs != []
    requires l >= LcmAll(Periods(cs, levels)) + MaxOf(Deadlines(cs, m + 1, m >= 0, levels))
    ensures 0 < LcmAll(Periods(cs, levels)) <= l
  {
    var ds := Deadlines(cs, m + 1, m >= 0, levels);
    OffsetBounds(cs[0], m, levels);
    assert ds[0] == Offset(cs[0], m, levels);
  }

  lemma HyperperiodStep(cs: seq<Tuned>, m: int, l: int, h: nat, levels: nat)
    requires AllValid(cs, levels) && ValidPairIndex(m, levels) && AllReady(cs, m, levels)
    requires AllAbove(cs, m) && 0 <= l && h == LcmAll(Periods(cs, levels))
    requires TotalUtil(cs, m + 1, levels) <= 1.0
    requires TotalDbf(cs, m, l, levels) <= l
    ensures TotalDbf(cs, m, l + h, levels) <= l + h
  {
    var ps := Periods(cs, levels);
    LcmFromIsLeast(1, ps, 0);
    assert forall i :: 0 <= i < |cs| ==> Divides(ps[i], h);
    var util, y := TotalUtil(cs, m + 1, levels), h as real;
    TotalPeriodic(cs, m, l, h, levels, y);
    RealMulWeak(y, util, 1.0);
  }

  lemma UtilFromBlock(util: real, y: real, before: real, after: real)
    requires y > 0.0 && 0.0 <= before && after == before + util * y && after <= y
    ensures util <= 1.0
  {
    RealCancel(y, util, 1.0);
  }

  /** Demand that fits every length leaves the utilization at or below one. */
  lemma FitsBoundsUtil(cs: seq<Tuned>, m: int, levels: nat)
    requires AllValid(cs, levels) && ValidPairIndex(m, levels) && AllReady(cs, m, levels)
    requires Fits(cs, m, levels)
    ensures TotalUtil(cs, m + 1, levels) <= 1.0
  {
    hide TotalUtil, TotalDbf, Above;
    var sub := Above(cs, m + 1);
    AboveMembers(cs, m + 1);
    AboveSums(cs, m, 0, levels);
    var ps := Periods(sub, levels);
    var h := LcmAll(ps);
    LcmFromIsLeast(1, ps, 0);
    assert forall i :: 0 <= i < |sub| ==> Divides(ps[i], h);
    AboveSums(cs, m, h, levels);
    var util, y := TotalUtil(cs, m + 1, levels), h as real;
    TotalPeriodic(sub, m, 0, h, levels, y);
    TotalDbfMonotone(sub, m, 0, 0, levels);
    UtilFromBlock(util, y, TotalDbf(sub, m, 0, levels) as real, TotalDbf(cs, m, h, levels) as real);
  }

  /** The bound of the core covers the bound of each of its two modes. */
  lemma BoundCoversMode(cs: seq<Tuned>, m: int, at: nat, levels: nat)
    requires AllValid(cs, levels) && ValidPairIndex(m, levels)
    requires at + 1 < levels && (m == at || (m == -1 && at == 0))
    ensures AllValid(Above(cs, m + 1), levels)
    ensures Truncate(ModeLMax(Above(cs, m + 1), m + 1, m >= 0, levels)) <= UncappedLMax(cs, at, levels)
  {
    hide ModeLMax;
    AboveMembers(cs, at);
    AboveMembers(cs, at + 1);
  }

  lemma SubsetPasses(cs: seq<Tuned>, m: int, bound: int, levels: nat)
    requires AllValid(cs, levels) && ValidPairIndex(m, levels) && AllReady(cs, m, levels)
    ensures AllValid(Above(cs, m + 1), levels) && AllReady(Above(cs, m + 1), m, levels)
    ensures AllAbove(Above(cs, m + 1), m)
    ensures PassesUpTo(cs, m, bound, levels) <==> PassesUpTo(Above(cs, m + 1), m, bound, levels)
  {
    hide TotalDbf;
    var sub := Above(cs, m + 1);
    AboveMembers(cs, m + 1);
    AboveSums(cs, m, 0, levels);
    forall l ensures TotalDbf(sub, m, l, levels) == TotalDbf(cs, m, l, levels) {
      AboveSums(cs, m, l, levels);
    }
  }

  lemma FiniteTestSuffices(cs: seq<Tuned>, m: int, at: nat, levels: nat)
    requires AllValid(cs, levels) && ValidPairIndex(m, levels) && AllReady(cs, m, levels)
    requires at + 1 < levels && (m == at || (m == -1 && at == 0))
    requires TotalUtil(cs, m + 1, levels) <= 1.0
    requires PassesUpTo(cs, m, UncappedLMax(cs, at, levels), levels)
    ensures Fits(cs, m, levels)
  {
    hide TotalUtil, TotalDbf, ModeLMax, UncappedLMax;
    var bound := UncappedLMax(cs, at, levels);
    var sub := Above(cs, m + 1);
    BoundCoversMode(cs, m, at, levels);
    SubsetPasses(cs, m, bound, levels);
    forall l | 0 <= l ensures TotalDbf(cs, m, l, levels) <= l {
      AboveSums(cs, m, l, levels);
      ModeTestSuffices(sub, m, bound, l, levels);
    }
  }

  /** Testing every length up to the uncapped bound decides the whole question, both for the pair
      (at, at+1) and, at level 0, for the steady state: demand fits every interval exactly when
      the utilization is at most one and the finite test passes. */
  lemma FiniteTestExact(cs: seq<Tuned>, m: int, at: nat, levels: nat)
    requires AllValid(cs, levels) && ValidPairIndex(m, levels) && AllReady(cs, m, levels)
    requires at + 1 < levels && (m == at || (m == -1 && at == 0))
    ensures Fits(cs, m, levels) <==>
              && TotalUtil(cs, m + 1, levels) <= 1.0
              && PassesUpTo(cs, m, UncappedLMax(cs, at, levels), levels)
  {
    if Fits(cs, m, levels) {
      FitsBoundsUtil(cs, m, levels);
    } else if TotalUtil(cs, m + 1, levels) <= 1.0
              && PassesUpTo(cs, m, UncappedLMax(cs, at, levels), levels) {
      FiniteTestSuffices(cs, m, at, levels);
    }
  }
}
