/** Admission of a task to a core: all levels are tuned from the highest to the lowest, and the
    core keeps the result or gets every deadline back. */
module Tuner {
  import opened Numbers
  import opened Demand
  import opened DemandBound
  import opened Search
  import opened TuneMode

  datatype TaskType = Primary | Replica

  // ---- what holds on a tuned core -----------------------------------------------------------

  /** The deadlines of the pair (m, m+1) are in order and its demand has been tested. */
  predicate PairSettled(cs: seq<Tuned>, m: nat, levels: nat)
    requires AllValid(cs, levels) && m < levels
  {
    m + 1 < levels ==>
      && AllReady(cs, m, levels)
      && (AnyAbove(cs, m) ==> Tested(cs, m, LMax(cs, m, LENGTH_CAP, levels), levels))
  }

  /** Deadlines grow with the level up to the task's own level, where they reach the deadline. */
  predicate Chained(c: Tuned, levels: nat)
    requires ValidTuned(c, levels)
  {
    && (forall m :: 0 <= m < c.task.crit ==> c.task.wcet[m] <= c.vd[m] <= c.vd[m + 1])
    && (forall m :: c.task.crit <= m < levels ==> c.vd[m] == c.task.deadline)
  }

  /** Everything a tuned core guarantees about the tasks placed on it. */
  predicate Settled(cs: seq<Tuned>, levels: nat)
    requires AllValid(cs, levels)
  {
    && (forall m :: 0 <= m < levels ==> TotalUtil(cs, m, levels) <= 1.0)
    && (forall m :: 0 <= m < levels ==> PairSettled(cs, m, levels))
    && (forall i :: 0 <= i < |cs| ==> Chained(cs[i], levels))
  }

  lemma NoneAboveFits(cs: seq<Tuned>, m: int, l: int, levels: nat)
    requires AllValid(cs, levels) && ValidPairIndex(m, levels) && !AnyAbove(cs, m)
    ensures TotalDbf(cs, m, l, levels) == 0
  {
    if cs != [] {
      assert !AnyAbove(cs[1..], m) by {
        forall i | 0 <= i < |cs[1..]| ensures cs[1..][i].task.crit <= m {
          assert cs[i + 1].task.crit <= m;
        }
      }
      assert cs[0].task.crit <= m;
      NoneAboveFits(cs[1..], m, l, levels);
    }
  }

  /** On a tuned core, the demand of every pair of modes fits every interval length, provided the
      length bound of the pair is not cut off by the cap. */
  lemma SettledFits(cs: seq<Tuned>, m: nat, levels: nat)
    requires AllValid(cs, levels) && Settled(cs, levels) && m + 1 < levels
    requires UncappedLMax(cs, m, levels) <= LENGTH_CAP
    ensures Fits(cs, m, levels)
    ensures m == 0 && AnyAbove(cs, 0) ==> Fits(cs, -1, levels)
  {
    assert PairSettled(cs, m, levels);
    if AnyAbove(cs, m) {
      hide TotalUtil, TotalDbf, UncappedLMax;
      FiniteTestSuffices(cs, m, m, levels);
      if m == 0 {
        FiniteTestSuffices(cs, -1, 0, levels);
      }
    } else {
      forall l | 0 <= l ensures TotalDbf(cs, m, l, levels) <= l {
        NoneAboveFits(cs, m, l, levels);
      }
    }
  }

  /** The lengths from `first` to `last` pass the test. */
  predicate PassesFrom(cs: seq<Tuned>, m: int, first: int, last: int, levels: nat)
    requires AllValid(cs, levels) && ValidPairIndex(m, levels)
  {
    forall l :: 0 <= l && first <= l <= last ==> TotalDbf(cs, m, l, levels) <= l
  }

  lemma TestedThenRest(cs: seq<Tuned>, m: int, first: int, bound: int, levels: nat)
    requires AllValid(cs, levels) && ValidPairIndex(m, levels)
    requires PassesUpTo(cs, m, first - 1, levels)
    ensures PassesUpTo(cs, m, bound, levels) <==> PassesFrom(cs, m, first, bound, levels)
  {
    hide TotalDbf;
  }

  /** What decides a pair of modes on a tuned core: the demand fits every length exactly if it fits
      the lengths that the cap cut off. */
  lemma SettledExact(cs: seq<Tuned>, m: nat, levels: nat)
    requires AllValid(cs, levels) && Settled(cs, levels) && m + 1 < levels
    ensures Fits(cs, m, levels) <==> PassesFrom(cs, m, LENGTH_CAP + 1, UncappedLMax(cs, m, levels), levels)
  {
    assert PairSettled(cs, m, levels);
    hide TotalUtil, TotalDbf, UncappedLMax;
    if AnyAbove(cs, m) {
      FiniteTestExact(cs, m, m, levels);
      CutOffRest(cs, m, m, levels);
    } else {
      forall l | 0 <= l ensures TotalDbf(cs, m, l, levels) <= l {
        NoneAboveFits(cs, m, l, levels);
      }
    }
  }

  lemma CutOffRest(cs: seq<Tuned>, m: int, at: nat, levels: nat)
    requires AllValid(cs, levels) && ValidPairIndex(m, levels) && at + 1 < levels
    requires PassesUpTo(cs, m, LMax(cs, at, LENGTH_CAP, levels), levels)
    ensures PassesUpTo(cs, m, UncappedLMax(cs, at, levels), levels)
       <==> PassesFrom(cs, m, LENGTH_CAP + 1, UncappedLMax(cs, at, levels), levels)
  {
    hide TotalDbf, UncappedLMax;
    var bound := UncappedLMax(cs, at, levels);
    if bound > LENGTH_CAP {
      TestedThenRest(cs, m, LENGTH_CAP + 1, bound, levels);
    }
  }

  /** Up to this length the steady state decides itself. */
  function SteadyBound(cs: seq<Tuned>, levels: nat): int
    requires AllValid(cs, levels) && 0 < levels
  {
    if levels == 1 then SingleBound(cs) else UncappedLMax(cs, 0, levels)
  }

  function SingleBound(cs: seq<Tuned>): int
    requires AllValid(cs, 1)
  {
    AboveMembers(cs, 0);
    Truncate(ModeLMax(Above(cs, 0), 0, false, 1))
  }

  /** What decides the steady state of a tuned core: with a task above level 0 the lengths that the
      cap cut off, and otherwise, in particular with a single level, all lengths up to the bound. */
  lemma SteadyStateExact(cs: seq<Tuned>, levels: nat)
    requires AllValid(cs, levels) && Settled(cs, levels) && 0 < levels
    ensures Fits(cs, -1, levels) <==>
              PassesFrom(cs, -1, if AnyAbove(cs, 0) then LENGTH_CAP + 1 else 0, SteadyBound(cs, levels), levels)
  {
    assert PairSettled(cs, 0, levels);
    hide UncappedLMax, SingleBound, TotalDbf, TotalUtil;
    if levels == 1 {
      TestedThenRest(cs, -1, 0, SingleBound(cs), levels);
      SingleLevelExact(cs);
    } else {
      FiniteTestExact(cs, -1, 0, levels);
      if AnyAbove(cs, 0) {
        CutOffRest(cs, -1, 0, levels);
      } else {
        TestedThenRest(cs, -1, 0, UncappedLMax(cs, 0, levels), levels);
      }
    }
  }

  /** On a tuned core the demand fits all lengths up to a million and up to the bound, for every pair of modes
      with a task above the lower one; at level 0 so does the steady state. */
  lemma TestedToAMillion(cs: seq<Tuned>, m: nat, l: int, levels: nat)
    requires AllValid(cs, levels) && Settled(cs, levels) && m + 1 < levels && AnyAbove(cs, m)
    requires 0 <= l <= 1_000_000 && l <= UncappedLMax(cs, m, levels)
    ensures TotalDbf(cs, m, l, levels) <= l && (m == 0 ==> TotalDbf(cs, -1, l, levels) <= l)
  {
    hide TotalDbf, UncappedLMax, TotalUtil, AnyAbove;
    assert PairSettled(cs, m, levels);
  }

  lemma SingleLevelExact(cs: seq<Tuned>)
    requires AllValid(cs, 1) && TotalUtil(cs, 0, 1) <= 1.0
    ensures Fits(cs, -1, 1) <==> PassesUpTo(cs, -1, SingleBound(cs), 1)
    ensures !AnyAbove(cs, 0)
  {
    hide TotalUtil, TotalDbf, ModeLMax;
    var sub := Above(cs, 0);
    AboveMembers(cs, 0);
    AboveSums(cs, -1, 0, 1);
    SubsetPasses(cs, -1, SingleBound(cs), 1);
    if PassesUpTo(cs, -1, SingleBound(cs), 1) {
      forall l | 0 <= l ensures TotalDbf(cs, -1, l, 1) <= l {
        AboveSums(cs, -1, l, 1);
        ModeTestSuffices(sub, -1, SingleBound(cs), l, 1);
      }
    }
  }

  // ---- tuning a lower level leaves the higher pairs alone -----------------------------------

  predicate SamePair(a: seq<Tuned>, b: seq<Tuned>, m: nat) {
    |a| == |b| &&
    forall i :: 0 <= i < |a| ==>
      && a[i].task == b[i].task
      && m + 1 < |a[i].vd| && m + 1 < |b[i].vd|
      && a[i].vd[m] == b[i].vd[m] && a[i].vd[m + 1] == b[i].vd[m + 1]
  }

  lemma ValidLengths(cs: seq<Tuned>, levels: nat)
    requires AllValid(cs, levels)
    ensures forall i :: 0 <= i < |cs| ==> |cs[i].vd| == levels && |cs[i].task.wcet| == levels
  {
  }

  lemma {:induction false} SamePairDemand(a: seq<Tuned>, b: seq<Tuned>, m: nat, l: int, levels: nat)
    requires AllValid(a, levels) && AllValid(b, levels) && m + 1 < levels && SamePair(a, b, m)
    ensures TotalDbf(a, m, l, levels) == TotalDbf(b, m, l, levels)
  {
    if a != [] {
      SamePairDemand(a[1..], b[1..], m, l, levels);
      assert Dbf(a[0], m, l, levels) == Dbf(b[0], m, l, levels);
    }
  }

  lemma {:induction false} SameTasksUtil(a: seq<Tuned>, b: seq<Tuned>, m: nat, levels: nat)
    requires AllValid(a, levels) && AllValid(b, levels) && m < levels && |a| == |b|
    requires forall i :: 0 <= i < |a| ==> a[i].task == b[i].task
    ensures TotalUtil(a, m, levels) == TotalUtil(b, m, levels)
  {
    if a != [] {
      SameTasksUtil(a[1..], b[1..], m, levels);
    }
  }

  lemma SamePairTail(a: seq<Tuned>, b: seq<Tuned>, m: nat)
    requires SamePair(a, b, m) && a != []
    ensures SamePair(a[1..], b[1..], m) && SamePair(a[..1], b[..1], m) && a[0].task == b[0].task
  {
  }

  lemma SamePairJoin(a: seq<Tuned>, b: seq<Tuned>, c: seq<Tuned>, d: seq<Tuned>, m: nat)
    requires SamePair(a, b, m) && SamePair(c, d, m)
    ensures SamePair(a + c, b + d, m)
  {
  }

  lemma {:induction false} SamePairAbove(a: seq<Tuned>, b: seq<Tuned>, m: nat, mode: nat)
    requires SamePair(a, b, m)
    ensures SamePair(Above(a, mode), Above(b, mode), m)
  {
    hide SamePair;
    if a != [] {
      SamePairSize(a, b, m);
      SamePairTail(a, b, m);
      SamePairAbove(a[1..], b[1..], m, mode);
      SamePairJoin(a[..1], b[..1], Above(a[1..], mode), Above(b[1..], mode), m);
      assert a[..1] == [a[0]] && b[..1] == [b[0]];
      assert Above(a, mode) == (if a[0].task.crit >= mode then a[..1] + Above(a[1..], mode) else Above(a[1..], mode));
      assert Above(b, mode) == (if b[0].task.crit >= mode then b[..1] + Above(b[1..], mode) else Above(b[1..], mode));
    } else {
      SamePairSize(a, b, m);
    }
  }

  lemma SamePairSize(a: seq<Tuned>, b: seq<Tuned>, m: nat)
    requires SamePair(a, b, m)
    ensures |a| == |b| && SamePair([], [], m)
  {
  }

  lemma SamePairModeLMax(a: seq<Tuned>, b: seq<Tuned>, m: nat, hiMode: bool, levels: nat)
    requires AllValid(a, levels) && AllValid(b, levels) && m + 1 < levels && SamePair(a, b, m)
    ensures var mode := if hiMode then m + 1 else m;
            ModeLMax(a, mode, hiMode, levels) == ModeLMax(b, mode, hiMode, levels)
  {
    hide TotalUtil, LcmAll, MaxOf, DensityBound, ValidTuned;
    var mode := if hiMode then m + 1 else m;
    SameTasksUtil(a, b, mode, levels);
    assert Periods(a, levels) == Periods(b, levels);
    assert Deadlines(a, mode, hiMode, levels) == Deadlines(b, mode, hiMode, levels);
    assert Slacks(a, mode, hiMode, levels) == Slacks(b, mode, hiMode, levels);
  }

  lemma SamePairLMax(a: seq<Tuned>, b: seq<Tuned>, m: nat, levels: nat)
    requires AllValid(a, levels) && AllValid(b, levels) && m + 1 < levels && SamePair(a, b, m)
    ensures UncappedLMax(a, m, levels) == UncappedLMax(b, m, levels)
  {
    hide ModeLMax;
    AboveMembers(a, m);
    AboveMembers(a, m + 1);
    AboveMembers(b, m);
    AboveMembers(b, m + 1);
    SamePairAbove(a, b, m, m);
    SamePairAbove(a, b, m, m + 1);
    SamePairModeLMax(Above(a, m), Above(b, m), m, false, levels);
    SamePairModeLMax(Above(a, m + 1), Above(b, m + 1), m, true, levels);
  }

  /** A later pass at a lower level keeps what was established for the pair (m, m+1). */
  lemma PairSettledKept(before: seq<Tuned>, after: seq<Tuned>, k: nat, m: nat, levels: nat)
    requires AllValid(before, levels) && AllValid(after, levels) && k < m < levels
    requires OnlyModeChanged(before, after, k) && PairSettled(before, m, levels)
    ensures PairSettled(after, m, levels)
  {
    if m + 1 < levels {
      hide TotalDbf, UncappedLMax, ValidTuned;
      assert SamePair(before, after, m) by {
        ValidLengths(before, levels);
        ValidLengths(after, levels);
      }
      SamePairLMax(before, after, m, levels);
      forall l ensures TotalDbf(after, m, l, levels) == TotalDbf(before, m, l, levels) {
        SamePairDemand(before, after, m, l, levels);
      }
    }
  }

  // ---- all levels, from the highest to the lowest -------------------------------------------

  /** Levels from `n` on are tuned; the deadlines below are still untouched. */
  predicate LevelsDone(cs: seq<Tuned>, n: nat, levels: nat) {
    && AllValid(cs, levels) && n <= levels
    && (forall m :: n <= m < levels ==> TotalUtil(cs, m, levels) <= 1.0)
    && (forall m :: n <= m < levels ==> PairSettled(cs, m, levels))
    && (forall i, m :: 0 <= i < |cs| && 0 <= m < levels && (m < n || cs[i].task.crit <= m) ==>
          cs[i].vd[m] == cs[i].task.deadline)
  }

  lemma LevelStep(before: seq<Tuned>, after: seq<Tuned>, n: nat, levels: nat)
    requires n < levels && LevelsDone(before, n + 1, levels) && AllValid(after, levels)
    requires OnlyModeChanged(before, after, n) && PairSettled(after, n, levels)
    requires TotalUtil(after, n, levels) <= 1.0
    ensures LevelsDone(after, n, levels)
  {
    hide TotalUtil, PairSettled;
    forall m | n < m < levels
      ensures PairSettled(after, m, levels) && TotalUtil(after, m, levels) <= 1.0
    {
      PairSettledKept(before, after, n, m, levels);
      SameTasksUtil(before, after, m, levels);
    }
  }

  lemma AllLevelsDone(cs: seq<Tuned>, levels: nat)
    requires LevelsDone(cs, 0, levels)
    ensures Settled(cs, levels)
  {
    hide TotalUtil, LMax, TotalDbf, AnyAbove;
    forall i | 0 <= i < |cs| ensures Chained(cs[i], levels) {
      forall m | 0 <= m < cs[i].task.crit ensures cs[i].task.wcet[m] <= cs[i].vd[m] <= cs[i].vd[m + 1] {
        assert PairSettled(cs, m, levels);
        assert PairReady(cs[i], m, levels);
      }
    }
  }

  lemma PassSettles(before: seq<Tuned>, after: seq<Tuned>, m: nat, levels: nat)
    requires Passes(before, after, m, levels)
    ensures m < levels && AllValid(before, levels) && AllValid(after, levels)
    ensures OnlyModeChanged(before, after, m) && PairSettled(after, m, levels)
  {
    hide Passes, OnlyModeChanged, LMax, Tested;
    PassLevel(before, after, m, levels);
    PassMeans(before, after, m, levels);
  }

  lemma PassLevel(before: seq<Tuned>, after: seq<Tuned>, m: nat, levels: nat)
    requires Passes(before, after, m, levels)
    ensures m < levels && AllValid(before, levels)
  {
  }

  function SpecsOf(ts: seq<Task>): (specs: seq<TaskSpec>)
    ensures |specs| == |ts| && forall i :: 0 <= i < |ts| ==> specs[i] == ts[i].spec
  {
    seq(|ts|, i requires 0 <= i < |ts| => ts[i].spec)
  }

  predicate SnapOf(specs: seq<TaskSpec>, cs: seq<Tuned>) {
    |cs| == |specs| && forall i :: 0 <= i < |cs| ==> cs[i].task == specs[i]
  }

  /** Fresh tasks: each deadline is the task's own. */
  function Starts(specs: seq<TaskSpec>, levels: nat): seq<Tuned> {
    seq(|specs|, i requires 0 <= i < |specs| => Tuned(specs[i], seq(levels, _ => specs[i].deadline)))
  }

  /** At level `m` the newcomer would raise the recorded utilization above one. */
  predicate Overload(t: TaskSpec, utilization: seq<real>, m: nat, levels: nat) {
    && ValidSpec(t, levels) && m < levels == |utilization|
    && t.crit >= m && utilization[m] + t.wcet[m] as real / t.period as real > 1.0
  }

  /** From the deadlines `start`, tuning the levels from the highest down to `n` leads to `cs`. */
  ghost predicate DownTo(start: seq<Tuned>, cs: seq<Tuned>, n: nat, t: TaskSpec, utilization: seq<real>, levels: nat)
    decreases levels - n
  {
    if n >= levels then n == levels && cs == start
    else
      && !Overload(t, utilization, n, levels)
      && exists prev :: DownTo(start, prev, n + 1, t, utilization, levels) && Passes(prev, cs, n, levels)
  }

  /** Tuning all levels of these tasks succeeds and leaves these deadlines. */
  ghost predicate Accepted(specs: seq<TaskSpec>, after: seq<Tuned>, t: TaskSpec, utilization: seq<real>, levels: nat) {
    DownTo(Starts(specs, levels), after, 0, t, utilization, levels)
  }

  /** Why a core turns a task away: the highest levels have been tuned, and at the next one the
      utilization would exceed one, or the pass fails. */
  ghost predicate Refused(specs: seq<TaskSpec>, t: TaskSpec, utilization: seq<real>, levels: nat) {
    exists m, before :: 0 <= m < levels && RefusedAt(specs, before, m, t, utilization, levels)
  }

  ghost predicate RefusedAt(specs: seq<TaskSpec>, before: seq<Tuned>, m: nat, t: TaskSpec, utilization: seq<real>,
                            levels: nat) {
    && DownTo(Starts(specs, levels), before, m + 1, t, utilization, levels)
    && (Overload(t, utilization, m, levels) || Fails(before, m, levels))
  }

  lemma {:induction false} DownToOnce(start: seq<Tuned>, a: seq<Tuned>, b: seq<Tuned>, n: nat, t: TaskSpec,
                                      utilization: seq<real>, levels: nat)
    requires DownTo(start, a, n, t, utilization, levels) && DownTo(start, b, n, t, utilization, levels)
    ensures a == b
    decreases levels - n
  {
    hide Overload, Passes;
    if n < levels {
      var a' :| DownTo(start, a', n + 1, t, utilization, levels) && Passes(a', a, n, levels);
      var b' :| DownTo(start, b', n + 1, t, utilization, levels) && Passes(b', b, n, levels);
      DownToOnce(start, a', b', n + 1, t, utilization, levels);
      PassesOrFails(a', a, b, n, levels);
    }
  }

  lemma {:induction false} DownToValid(start: seq<Tuned>, cs: seq<Tuned>, n: nat, t: TaskSpec, utilization: seq<real>,
                                       levels: nat)
    requires AllValid(start, levels) && DownTo(start, cs, n, t, utilization, levels)
    ensures n <= levels && AllValid(cs, levels)
    decreases levels - n
  {
    hide Overload, Passes;
    if n < levels {
      var prev :| DownTo(start, prev, n + 1, t, utilization, levels) && Passes(prev, cs, n, levels);
      PassMeans(prev, cs, n, levels);
    }
  }

  /** A level that has been passed on the way down was neither overloaded nor failed. */
  lemma {:induction false} PassedThrough(start: seq<Tuned>, cs: seq<Tuned>, n: nat, before: seq<Tuned>, m: nat,
                                         t: TaskSpec,
                                         utilization: seq<real>, levels: nat)
    requires DownTo(start, cs, n, t, utilization, levels) && n <= m < levels
    requires DownTo(start, before, m + 1, t, utilization, levels)
    ensures !Overload(t, utilization, m, levels) && !Fails(before, m, levels)
    decreases levels - n
  {
    hide Overload, Passes, Fails;
    var prev :| DownTo(start, prev, n + 1, t, utilization, levels) && Passes(prev, cs, n, levels);
    if m == n {
      DownToOnce(start, prev, before, n + 1, t, utilization, levels);
      PassesOrFails(prev, cs, cs, n, levels);
    } else {
      PassedThrough(start, prev, n + 1, before, m, t, utilization, levels);
    }
  }

  /** Going down, either the level is reached or some level above it refuses. */
  lemma {:induction false} GoesDown(specs: seq<TaskSpec>, n: nat, t: TaskSpec, utilization: seq<real>, levels: nat)
    requires AllValid(Starts(specs, levels), levels) && n <= levels
    ensures Refused(specs, t, utilization, levels)
            || exists cs :: DownTo(Starts(specs, levels), cs, n, t, utilization, levels)
    decreases levels - n
  {
    hide Overload, Passes, Fails, Starts;
    var start := Starts(specs, levels);
    if n == levels {
      assert DownTo(start, start, n, t, utilization, levels);
    } else {
      GoesDown(specs, n + 1, t, utilization, levels);
      if !Refused(specs, t, utilization, levels) {
        var prev :| DownTo(start, prev, n + 1, t, utilization, levels);
        DownToValid(start, prev, n + 1, t, utilization, levels);
        PassDecided(prev, n, levels);
        assert !RefusedAt(specs, prev, n, t, utilization, levels);
        var after :| Passes(prev, after, n, levels);
        assert DownTo(start, after, n, t, utilization, levels);
      }
    }
  }

  /** Tasks are refused exactly if they are not accepted with some deadlines, and these are unique. */
  lemma RefusedOrAccepted(specs: seq<TaskSpec>, t: TaskSpec, utilization: seq<real>, levels: nat)
    requires AllValid(Starts(specs, levels), levels)
    ensures Refused(specs, t, utilization, levels) <==> !exists after :: Accepted(specs, after, t, utilization, levels)
    ensures forall a, b :: Accepted(specs, a, t, utilization, levels) && Accepted(specs, b, t, utilization, levels) ==>
              a == b
  {
    hide DownTo, Overload, Fails, Starts;
    var start := Starts(specs, levels);
    GoesDown(specs, 0, t, utilization, levels);
    if !Refused(specs, t, utilization, levels) {
      var after :| DownTo(start, after, 0, t, utilization, levels);
      assert Accepted(specs, after, t, utilization, levels);
    }
    forall after | Accepted(specs, after, t, utilization, levels) ensures !Refused(specs, t, utilization, levels) {
      forall m, before | 0 <= m < levels && DownTo(start, before, m + 1, t, utilization, levels)
        ensures !RefusedAt(specs, before, m, t, utilization, levels)
      {
        PassedThrough(start, after, 0, before, m, t, utilization, levels);
      }
    }
    forall a, b | Accepted(specs, a, t, utilization, levels) && Accepted(specs, b, t, utilization, levels)
      ensures a == b
    {
      DownToOnce(start, a, b, 0, t, utilization, levels);
    }
  }

  lemma RefusesHere(specs: seq<TaskSpec>, before: seq<Tuned>, m: nat, t: TaskSpec, utilization: seq<real>, levels: nat)
    requires m < levels && DownTo(Starts(specs, levels), before, m + 1, t, utilization, levels)
    requires Overload(t, utilization, m, levels) || Fails(before, m, levels)
    ensures Refused(specs, t, utilization, levels)
  {
    hide DownTo, Overload, Fails, Starts;
    assert RefusedAt(specs, before, m, t, utilization, levels);
  }

  lemma OneLevelDown(start: seq<Tuned>, before: seq<Tuned>, after: seq<Tuned>, m: nat, t: TaskSpec,
                     utilization: seq<real>, levels: nat)
    requires m < levels && DownTo(start, before, m + 1, t, utilization, levels)
    requires !Overload(t, utilization, m, levels) && Passes(before, after, m, levels)
    ensures DownTo(start, after, m, t, utilization, levels)
  {
    hide Overload, Passes;
  }

  lemma SpecsSnap(ts: seq<Task>)
    ensures SnapOf(SpecsOf(ts), Snap(ts))
  {
  }

  // ---- when nothing needs tuning ------------------------------------------------------------

  /** With these deadlines every check of every level passes as it is. */
  predicate PassesUntuned(cs: seq<Tuned>, levels: nat)
    requires AllValid(cs, levels)
  {
    && (forall m :: 0 <= m < levels ==> TotalUtil(cs, m, levels) <= 1.0)
    && (forall m :: 0 <= m && m + 1 < levels && AnyAbove(cs, m) ==>
          && Clampable(cs, m)
          && Tested(cs, m, LMax(cs, m, LENGTH_CAP, levels), levels))
  }

  predicate AsDeclared(cs: seq<Tuned>, levels: nat)
    requires AllValid(cs, levels)
  {
    forall i, k :: 0 <= i < |cs| && 0 <= k < levels ==> cs[i].vd[k] == cs[i].task.deadline
  }

  lemma StartsUnclamped(cs: seq<Tuned>, m: nat, levels: nat)
    requires AllValid(cs, levels) && m + 1 < levels
    requires AsDeclared(cs, levels)
    ensures HasPair(cs, m) && ClampAll(cs, m) == cs
  {
    hide ClampThese, AboveAt;
    ValidHasPair(cs, m, levels);
    forall i | 0 <= i < |cs| ensures ClampAll(cs, m)[i] == cs[i] {
      assert cs[i].vd[m] == cs[i].vd[m + 1] == cs[i].task.deadline;
      assert cs[i].vd[m := StartVd(cs[i], m)] == cs[i].vd;
    }
  }

  /** A pass over tasks that need no tuning changes nothing. */
  lemma UntunedPass(cs: seq<Tuned>, m: nat, levels: nat)
    requires AllValid(cs, levels) && m < levels
    requires AsDeclared(cs, levels)
    requires PassesUntuned(cs, levels)
    ensures Passes(cs, cs, m, levels)
  {
    hide TotalUtil, TotalDbf, LMax, Clampable, ClampAll, HasPair, AsDeclared, Passes;
    if m + 1 < levels {
      StartsUnclamped(cs, m, levels);
    }
    AtOncePasses(cs, m, levels);
  }

  lemma {:induction false} UntunedDown(cs: seq<Tuned>, n: nat, t: TaskSpec, utilization: seq<real>, levels: nat)
    requires AllValid(cs, levels) && AsDeclared(cs, levels) && PassesUntuned(cs, levels) && n <= levels
    requires ValidSpec(t, levels) && |utilization| == levels
    requires forall m :: 0 <= m < levels ==> TotalUtil(cs, m, levels) == utilization[m] + TaskUtil(t, m, levels)
    ensures DownTo(cs, cs, n, t, utilization, levels)
    decreases levels - n
  {
    hide TotalUtil, PassesUntuned, AsDeclared, Passes, AllValid, TaskUtil;
    if n < levels {
      UntunedDown(cs, n + 1, t, utilization, levels);
      NotOverloaded(cs, n, utilization[n], t, levels);
      UntunedPass(cs, n, levels);
    }
  }

  /** Tasks that pass every check as they are get accepted with their own deadlines. */
  lemma UntunedAccepted(specs: seq<TaskSpec>, t: TaskSpec, utilization: seq<real>, levels: nat)
    requires AllValid(Starts(specs, levels), levels) && PassesUntuned(Starts(specs, levels), levels)
    requires ValidSpec(t, levels) && |utilization| == levels
    requires forall m :: 0 <= m < levels ==>
               TotalUtil(Starts(specs, levels), m, levels) == utilization[m] + TaskUtil(t, m, levels)
    ensures Accepted(specs, Starts(specs, levels), t, utilization, levels) && !Refused(specs, t, utilization, levels)
  {
    hide TotalUtil, PassesUntuned, Passes, AllValid, Refused, DownTo;
    StartsDeclared(specs, levels);
    UntunedDown(Starts(specs, levels), 0, t, utilization, levels);
    RefusedOrAccepted(specs, t, utilization, levels);
  }

  lemma UntunedOutcome(specs: seq<TaskSpec>, after: seq<Tuned>, t: TaskSpec, utilization: seq<real>, levels: nat)
    requires AllValid(Starts(specs, levels), levels)
    requires ValidSpec(t, levels) && |utilization| == levels
    requires forall m :: 0 <= m < levels ==>
               TotalUtil(Starts(specs, levels), m, levels) == utilization[m] + TaskUtil(t, m, levels)
    ensures PassesUntuned(Starts(specs, levels), levels) ==>
              !Refused(specs, t, utilization, levels)
              && (Accepted(specs, after, t, utilization, levels) ==> after == Starts(specs, levels))
  {
    hide TotalUtil, PassesUntuned, Refused, Accepted, AllValid, ValidSpec;
    if PassesUntuned(Starts(specs, levels), levels) {
      UntunedAccepted(specs, t, utilization, levels);
      RefusedOrAccepted(specs, t, utilization, levels);
    }
  }

  lemma StartsDeclared(specs: seq<TaskSpec>, levels: nat)
    requires AllValid(Starts(specs, levels), levels)
    ensures AsDeclared(Starts(specs, levels), levels)
  {
  }

  lemma SameLists(specs: seq<TaskSpec>, cs: seq<Tuned>, levels: nat)
    requires SnapOf(specs, cs) && AllValid(cs, levels)
    requires AsDeclared(cs, levels)
    ensures cs == Starts(specs, levels)
  {
    forall i | 0 <= i < |cs| ensures cs[i] == Starts(specs, levels)[i] {
      assert cs[i].vd == seq(levels, _ => specs[i].deadline);
    }
  }

  /** Every deadline is the task's own. */
  predicate Untuned(ts: seq<Task>, levels: nat)
    reads ts
  {
    forall i :: 0 <= i < |ts| ==>
      |ts[i].vd| == levels && forall m :: 0 <= m < levels ==> ts[i].vd[m] == ts[i].spec.deadline
  }

  lemma StartsUntuned(ts: seq<Task>, levels: nat)
    ensures Snap(ts) == Starts(SpecsOf(ts), levels) ==> Untuned(ts, levels)
  {
    if Snap(ts) == Starts(SpecsOf(ts), levels) {
      forall i | 0 <= i < |ts|
        ensures |ts[i].vd| == levels && forall m :: 0 <= m < levels ==> ts[i].vd[m] == ts[i].spec.deadline
      {
        assert Snap(ts)[i] == Starts(SpecsOf(ts), levels)[i];
      }
    }
  }

  lemma LevelsStart(cs: seq<Tuned>, levels: nat)
    requires LevelsDone(cs, levels, levels)
    ensures AsDeclared(cs, levels)
  {
  }

  /** Within the utilization of one, the newcomer is not turned away for overload. */
  lemma NotOverloaded(cs: seq<Tuned>, m: nat, recorded: real, t: TaskSpec, levels: nat)
    requires AllValid(cs, levels) && m < levels && ValidSpec(t, levels) && PassesUntuned(cs, levels)
    requires TotalUtil(cs, m, levels) == recorded + TaskUtil(t, m, levels)
    ensures t.period > 0 && m < |t.wcet|
    ensures t.crit >= m ==> recorded + t.wcet[m] as real / t.period as real <= 1.0
  {
    hide TotalUtil, TotalDbf, LMax, Clampable, AnyAbove, Tested;
    assert TotalUtil(cs, m, levels) <= 1.0;
  }

  /** Tunes every level, checking the utilization of the level first. `task` is the newcomer; the
      other tasks account for the recorded utilization. */
  method TuneLevels(ts: seq<Task>, task: Task, utilization: seq<real>, levels: nat) returns (ok: bool)
    requires Distinct(ts) && LevelsDone(Snap(ts), levels, levels)
    requires ValidSpec(task.spec, levels) && |utilization| == levels
    requires forall m :: 0 <= m < levels ==>
               && utilization[m] <= 1.0
               && TotalUtil(Snap(ts), m, levels) == utilization[m] + TaskUtil(task.spec, m, levels)
    modifies ts
    ensures AllValid(Snap(ts), levels)
    ensures ok ==> Settled(Snap(ts), levels)
    ensures ok ==> Accepted(SpecsOf(ts), Snap(ts), task.spec, utilization, levels)
    ensures ok <==> !Refused(SpecsOf(ts), task.spec, utilization, levels)
  {
    hide *;
    ghost var specs, start := SpecsOf(ts), Snap(ts);
    LevelsValid(start, levels, levels);
    LevelsStart(start, levels);
    SpecsSnap(ts);
    SameLists(specs, start, levels);
    RefusedOrAccepted(specs, task.spec, utilization, levels);
    NotYet(specs, task.spec, utilization, levels);
    var n := levels;
    while n > 0
      invariant 0 <= n <= levels
      invariant AllValid(Snap(ts), levels) && LevelsDone(Snap(ts), n, levels)
      invariant DownTo(Starts(specs, levels), Snap(ts), n, task.spec, utilization, levels)
    {
      ghost var before := Snap(ts);
      LevelUtil(start, before, n - 1, levels, utilization[n - 1], task.spec);
      OverloadIs(task.spec, utilization, n - 1, levels);
      if task.spec.crit >= n - 1
         && utilization[n - 1] + task.spec.wcet[n - 1] as real / task.spec.period as real > 1.0 {
        RefusesHere(specs, before, n - 1, task.spec, utilization, levels);
        return false;
      }
      ghost var last, steps;
      ok, last, steps := Tune(ts, n - 1, levels);
      if !ok {
        RefusesHere(specs, before, n - 1, task.spec, utilization, levels);
        return;
      }
      PassSettles(before, Snap(ts), n - 1, levels);
      OneLevelDown(Starts(specs, levels), before, Snap(ts), n - 1, task.spec, utilization, levels);
      LevelUtilAfter(before, Snap(ts), n - 1, levels);
      LevelStep(before, Snap(ts), n - 1, levels);
      n := n - 1;
    }
    AllLevelsDone(Snap(ts), levels);
    AcceptedNow(specs, Snap(ts), task.spec, utilization, levels);
    return true;
  }

  lemma NotYet(specs: seq<TaskSpec>, t: TaskSpec, utilization: seq<real>, levels: nat)
    ensures DownTo(Starts(specs, levels), Starts(specs, levels), levels, t, utilization, levels)
  {
  }

  lemma OverloadIs(t: TaskSpec, utilization: seq<real>, m: nat, levels: nat)
    requires ValidSpec(t, levels) && m < levels == |utilization|
    ensures m < |t.wcet| && t.period > 0
    ensures Overload(t, utilization, m, levels) <==>
              t.crit >= m && utilization[m] + t.wcet[m] as real / t.period as real > 1.0
  {
  }

  lemma AcceptedNow(specs: seq<TaskSpec>, cs: seq<Tuned>, t: TaskSpec, utilization: seq<real>, levels: nat)
    requires DownTo(Starts(specs, levels), cs, 0, t, utilization, levels)
    ensures Accepted(specs, cs, t, utilization, levels)
  {
  }

  lemma LevelsValid(cs: seq<Tuned>, n: nat, levels: nat)
    requires LevelsDone(cs, n, levels)
    ensures AllValid(cs, levels)
  {
  }

  /** Passing the utilization check at a level bounds the utilization of all tasks there. */
  lemma LevelUtil(start: seq<Tuned>, before: seq<Tuned>, m: nat, levels: nat, recorded: real, t: TaskSpec)
    requires AllValid(start, levels) && AllValid(before, levels) && m < levels && |start| == |before|
    requires forall i :: 0 <= i < |start| ==> start[i].task == before[i].task
    requires ValidSpec(t, levels) && recorded <= 1.0
    requires TotalUtil(start, m, levels) == recorded + TaskUtil(t, m, levels)
    ensures m < |t.wcet| && t.period > 0
    ensures (t.crit < m || recorded + t.wcet[m] as real / t.period as real <= 1.0) ==>
              TotalUtil(before, m, levels) <= 1.0
  {
    hide TotalUtil;
    SameTasksUtil(start, before, m, levels);
  }

  lemma LevelUtilAfter(before: seq<Tuned>, after: seq<Tuned>, m: nat, levels: nat)
    requires AllValid(before, levels) && AllValid(after, levels) && m < levels
    requires OnlyModeChanged(before, after, m)
    ensures TotalUtil(after, m, levels) == TotalUtil(before, m, levels)
  {
    SameTasksUtil(before, after, m, levels);
  }

  // ---- the order of the tasks on a core does not matter -------------------------------------

  lemma {:induction false} TotalsConcat(a: seq<Tuned>, b: seq<Tuned>, m: int, l: int, levels: nat)
    requires AllValid(a, levels) && AllValid(b, levels) && ValidPairIndex(m, levels)
    ensures AllValid(a + b, levels)
    ensures TotalDbf(a + b, m, l, levels) == TotalDbf(a, m, l, levels) + TotalDbf(b, m, l, levels)
    ensures TotalUtil(a + b, m + 1, levels) == TotalUtil(a, m + 1, levels) + TotalUtil(b, m + 1, levels)
  {
    if a == [] {
      assert a + b == b;
    } else {
      TotalsConcat(a[1..], b, m, l, levels);
      assert (a + b)[1..] == a[1..] + b;
    }
  }

  lemma HeadIsMember(s: seq<Tuned>)
    requires s != []
    ensures s[0] in s
  {
  }

  predicate SameMembers(a: seq<Tuned>, b: seq<Tuned>) {
    (forall c :: c in a ==> c in b) && (forall c :: c in b ==> c in a)
  }

  lemma SameMembersModeLMax(a: seq<Tuned>, b: seq<Tuned>, mode: nat, hiMode: bool, levels: nat)
    requires AllValid(a, levels) && AllValid(b, levels) && mode < levels && (hiMode ==> mode > 0)
    requires SameMembers(a, b) && TotalUtil(a, mode, levels) == TotalUtil(b, mode, levels)
    ensures ModeLMax(a, mode, hiMode, levels) == ModeLMax(b, mode, hiMode, levels)
  {
    hide TotalUtil, LcmAll, DensityBound, ValidTuned, MaxOf, ModeDeadline;
    if a != [] {
      assert a[0] in b;
      PeriodsMembers(a, b, levels);
      PeriodsMembers(b, a, levels);
      LcmOrderIndependent(Periods(a, levels), Periods(b, levels));
      MaxMembers(a, b, mode, hiMode, levels);
      MaxMembers(b, a, mode, hiMode, levels);
    } else if b != [] {
      HeadIsMember(b);
    }
  }

  lemma PeriodsMembers(a: seq<Tuned>, b: seq<Tuned>, levels: nat)
    requires AllValid(a, levels) && AllValid(b, levels) && SameMembers(a, b)
    ensures forall p :: p in Periods(a, levels) ==> p in Periods(b, levels)
  {
    forall p | p in Periods(a, levels) ensures p in Periods(b, levels) {
      var i :| 0 <= i < |a| && Periods(a, levels)[i] == p;
      assert a[i] in b;
      var j :| 0 <= j < |b| && b[j] == a[i];
      assert Periods(b, levels)[j] == p;
    }
  }

  lemma MaxMembers(a: seq<Tuned>, b: seq<Tuned>, mode: nat, hiMode: bool, levels: nat)
    requires AllValid(a, levels) && AllValid(b, levels) && mode < levels && (hiMode ==> mode > 0)
    requires SameMembers(a, b) && a != [] && b != []
    ensures MaxOf(Deadlines(a, mode, hiMode, levels)) <= MaxOf(Deadlines(b, mode, hiMode, levels))
    ensures MaxOf(Slacks(a, mode, hiMode, levels)) <= MaxOf(Slacks(b, mode, hiMode, levels))
  {
    hide ValidTuned, MaxOf, ModeDeadline;
    var da, db := Deadlines(a, mode, hiMode, levels), Deadlines(b, mode, hiMode, levels);
    var i :| 0 <= i < |a| && da[i] == MaxOf(da);
    assert a[i] in b;
    var j :| 0 <= j < |b| && b[j] == a[i];
    assert db[j] == da[i];
    var sa, sb := Slacks(a, mode, hiMode, levels), Slacks(b, mode, hiMode, levels);
    var i' :| 0 <= i' < |a| && sa[i'] == MaxOf(sa);
    assert a[i'] in b;
    var j' :| 0 <= j' < |b| && b[j'] == a[i'];
    assert sb[j'] == sa[i'];
  }

  /** Two orders of the same tasks give the same sums at every pair and length. */
  ghost predicate SameTotals(a: seq<Tuned>, b: seq<Tuned>, levels: nat)
    requires AllValid(a, levels) && AllValid(b, levels)
  {
    && (forall m :: 0 <= m < levels ==> TotalUtil(a, m, levels) == TotalUtil(b, m, levels))
    && (forall m, l :: ValidPairIndex(m, levels) ==> TotalDbf(a, m, l, levels) == TotalDbf(b, m, l, levels))
  }

  lemma SameMembersLMax(a: seq<Tuned>, b: seq<Tuned>, m: nat, levels: nat)
    requires AllValid(a, levels) && AllValid(b, levels) && m + 1 < levels
    requires SameMembers(a, b) && SameTotals(a, b, levels)
    requires AllReady(a, m, levels) && AllReady(b, m, levels)
    ensures UncappedLMax(a, m, levels) == UncappedLMax(b, m, levels)
  {
    hide ModeLMax, TotalUtil, TotalDbf, AllReady;
    AboveMembers(a, m);
    AboveMembers(b, m);
    AboveMembers(a, m + 1);
    AboveMembers(b, m + 1);
    AboveUtil(a, m, levels);
    AboveUtil(b, m, levels);
    AboveUtil(a, m + 1, levels);
    AboveUtil(b, m + 1, levels);
    SameMembersModeLMax(Above(a, m), Above(b, m), m, false, levels);
    SameMembersModeLMax(Above(a, m + 1), Above(b, m + 1), m + 1, true, levels);
  }

  lemma {:induction false} AboveUtil(cs: seq<Tuned>, mode: nat, levels: nat)
    requires AllValid(cs, levels) && mode < levels
    ensures AllValid(Above(cs, mode), levels)
    ensures TotalUtil(Above(cs, mode), mode, levels) == TotalUtil(cs, mode, levels)
  {
    if cs != [] {
      AboveUtil(cs[1..], mode, levels);
      if cs[0].task.crit >= mode {
        assert Above(cs, mode) == [cs[0]] + Above(cs[1..], mode);
        assert Above(cs, mode)[1..] == Above(cs[1..], mode);
      } else {
        assert Above(cs, mode) == Above(cs[1..], mode);
      }
    }
  }

  lemma SettledReordered(a: seq<Tuned>, b: seq<Tuned>, levels: nat)
    requires AllValid(a, levels) && AllValid(b, levels) && Settled(a, levels)
    requires SameMembers(a, b) && SameTotals(a, b, levels)
    ensures Settled(b, levels)
  {
    hide TotalUtil, TotalDbf, UncappedLMax, ValidTuned, Chained, PairReady;
    forall m | 0 <= m < levels ensures PairSettled(b, m, levels) {
      assert PairSettled(a, m, levels);
      if m + 1 < levels {
        forall i | 0 <= i < |b| ensures PairReady(b[i], m, levels) {
          assert b[i] in a;
        }
        SameMembersLMax(a, b, m, levels);
        if AnyAbove(b, m) {
          var i :| 0 <= i < |b| && b[i].task.crit > m;
          assert b[i] in a;
        }
      }
    }
    forall i | 0 <= i < |b| ensures Chained(b[i], levels) {
      assert b[i] in a;
    }
  }

  /** Moving the last task between two groups, as placing a primary does. */
  lemma MoveLast(p: seq<Tuned>, r: seq<Tuned>, t: Tuned, levels: nat)
    requires AllValid(p, levels) && AllValid(r, levels) && ValidTuned(t, levels)
    ensures AllValid(p + r + [t], levels) && AllValid(p + [t] + r, levels)
    ensures SameMembers(p + r + [t], p + [t] + r) && SameTotals(p + r + [t], p + [t] + r, levels)
  {
    hide TotalUtil, TotalDbf, ValidTuned;
    var a, b := p + r + [t], p + [t] + r;
    assert AllValid([t], levels) && AllValid(p + r, levels) && AllValid(p + [t], levels);
    forall m, l | ValidPairIndex(m, levels)
      ensures TotalDbf(a, m, l, levels) == TotalDbf(b, m, l, levels)
      ensures TotalUtil(a, m + 1, levels) == TotalUtil(b, m + 1, levels)
    {
      TotalsConcat(p, r, m, l, levels);
      TotalsConcat(p + r, [t], m, l, levels);
      TotalsConcat(p, [t], m, l, levels);
      TotalsConcat(p + [t], r, m, l, levels);
    }
    forall m | 0 <= m < levels ensures TotalUtil(a, m, levels) == TotalUtil(b, m, levels) {
      assert ValidPairIndex(m - 1, levels) && TotalDbf(a, m - 1, 0, levels) == TotalDbf(b, m - 1, 0, levels);
      assert TotalUtil(a, (m - 1) + 1, levels) == TotalUtil(b, (m - 1) + 1, levels);
    }
  }

  // ---- saving, resetting and restoring deadlines --------------------------------------------

  predicate DistinctIds(ts: seq<Task>) {
    forall i, j :: 0 <= i < j < |ts| ==> ts[i].spec.id != ts[j].spec.id
  }

  predicate Saved(ts: seq<Task>, cs: seq<Tuned>, originals: map<nat, seq<int>>) {
    |cs| == |ts| &&
    forall i :: 0 <= i < |ts| ==>
      ts[i].spec.id in originals && cs[i] == Tuned(ts[i].spec, originals[ts[i].spec.id])
  }

  method SaveDeadlines(ts: seq<Task>) returns (originals: map<nat, seq<int>>)
    requires DistinctIds(ts)
    ensures Saved(ts, Snap(ts), originals)
  {
    originals := map[];
    for n := 0 to |ts|
      invariant forall i :: 0 <= i < n ==>
                  ts[i].spec.id in originals && originals[ts[i].spec.id] == ts[i].vd
    {
      originals := originals[ts[n].spec.id := ts[n].vd];
    }
  }

  method RestoreDeadlines(ts: seq<Task>, originals: map<nat, seq<int>>, ghost before: seq<Tuned>)
    requires Distinct(ts) && Saved(ts, before, originals)
    modifies ts
    ensures Snap(ts) == before
  {
    for n := 0 to |ts|
      invariant forall i :: 0 <= i < n ==> ts[i].vd == originals[ts[i].spec.id]
    {
      if ts[n].spec.id in originals {
        ts[n].vd := originals[ts[n].spec.id];
      }
    }
  }

  method ResetAll(ts: seq<Task>, levels: nat)
    requires AllValid(Snap(ts), levels) && Distinct(ts)
    modifies ts
    ensures AllValid(Snap(ts), levels)
    ensures forall i, m :: 0 <= i < |ts| && 0 <= m < levels ==> Snap(ts)[i].vd[m] == ts[i].spec.deadline
  {
    ghost var before := Snap(ts);
    for n := 0 to |ts|
      invariant forall i :: 0 <= i < n ==> ts[i].vd == seq(|before[i].vd|, _ => ts[i].spec.deadline)
      invariant forall i :: n <= i < |ts| ==> ts[i].vd == before[i].vd
    {
      ts[n].ResetVirtualDeadlines();
    }
    forall i | 0 <= i < |ts| ensures ValidTuned(Snap(ts)[i], levels) {
      assert ValidTuned(before[i], levels);
    }
  }

  // ---- the core -----------------------------------------------------------------------------

  /** Some assignment of deadlines lets exactly these tasks share a core. */
  ghost predicate Admissible(ts: seq<Task>, levels: nat) {
    exists cs: seq<Tuned> ::
      |cs| == |ts| && (forall i :: 0 <= i < |ts| ==> cs[i].task == ts[i].spec)
      && AllValid(cs, levels) && Settled(cs, levels)
  }

  /** The recorded utilization is that of the placed tasks, at most one at every level, and the
      placed tasks have been tuned together. */
  ghost predicate CoreOk(ts: seq<Task>, cs: seq<Tuned>, utilization: seq<real>, levels: nat) {
    && levels > 0 && |cs| == |ts|
    && Distinct(ts) && DistinctIds(ts)
    && AllValid(cs, levels) && Settled(cs, levels)
    && |utilization| == levels
    && forall m :: 0 <= m < levels ==> utilization[m] == TotalUtil(cs, m, levels)
  }

  /** Recorded utilizations with the share of one more task at every level it runs in. */
  function WithShare(utilization: seq<real>, t: TaskSpec, levels: nat): (r: seq<real>)
    requires ValidSpec(t, levels) && |utilization| == levels
    ensures |r| == levels
    ensures forall m :: 0 <= m < levels ==>
              r[m] == if m <= t.crit then utilization[m] + t.wcet[m] as real / t.period as real else utilization[m]
  {
    seq(levels, m requires 0 <= m < levels => utilization[m] + TaskUtil(t, m, levels))
  }

  /** The newcomer is a different object with a fresh id and usable parameters. */
  predicate Newcomer(ts: seq<Task>, task: Task, levels: nat)
    reads task
  {
    && task !in ts
    && ValidTuned(Tuned(task.spec, task.vd), levels)
    && forall i :: 0 <= i < |ts| ==> ts[i].spec.id != task.spec.id
  }

  lemma OfferedList(ts: seq<Task>, cs: seq<Tuned>, task: Task, utilization: seq<real>, levels: nat)
    requires CoreOk(ts, cs, utilization, levels) && Newcomer(ts, task, levels) && cs == Snap(ts)
    ensures Distinct(ts + [task]) && DistinctIds(ts + [task])
    ensures Snap(ts + [task]) == cs + [Tuned(task.spec, task.vd)]
    ensures AllValid(Snap(ts + [task]), levels)
    ensures levels > 0 && |utilization| == levels && ValidSpec(task.spec, levels)
    ensures forall m :: 0 <= m < levels ==>
              && utilization[m] <= 1.0
              && TotalUtil(Snap(ts + [task]), m, levels) == utilization[m] + TaskUtil(task.spec, m, levels)
  {
    hide TotalUtil, TotalDbf, TaskUtil, PairSettled, ValidTuned;
    var c := Tuned(task.spec, task.vd);
    SpecOf(c, levels);
    assert Snap(ts + [task]) == cs + [c];
    assert AllValid([c], levels);
    forall m | 0 <= m < levels
      ensures TotalUtil(cs + [c], m, levels) == TotalUtil(cs, m, levels) + TaskUtil(c.task, m, levels)
    {
      TotalsConcat(cs, [c], m - 1, 0, levels);
      SingleUtil(c, m, levels);
    }
  }

  lemma SpecOf(c: Tuned, levels: nat)
    requires ValidTuned(c, levels)
    ensures ValidSpec(c.task, levels)
  {
  }

  lemma SingleUtil(c: Tuned, m: nat, levels: nat)
    requires ValidTuned(c, levels) && m < levels
    ensures TotalUtil([c], m, levels) == TaskUtil(c.task, m, levels)
  {
    assert [c][1..] == [];
  }

  lemma ResetStarts(before: seq<Tuned>, reset: seq<Tuned>, levels: nat)
    requires |before| == |reset| && AllValid(before, levels) && AllValid(reset, levels)
    requires forall i :: 0 <= i < |before| ==> before[i].task == reset[i].task
    requires forall i, m :: 0 <= i < |reset| && 0 <= m < levels ==> reset[i].vd[m] == reset[i].task.deadline
    ensures LevelsDone(reset, levels, levels)
    ensures forall m :: 0 <= m < levels ==> TotalUtil(reset, m, levels) == TotalUtil(before, m, levels)
  {
    hide TotalUtil, ValidTuned;
    forall m | 0 <= m < levels ensures TotalUtil(reset, m, levels) == TotalUtil(before, m, levels) {
      SameTasksUtil(reset, before, m, levels);
    }
  }

  /** The placed list, in the order in which the core keeps it. */
  function Placed(p: seq<Task>, r: seq<Task>, task: Task, kind: TaskType): seq<Task> {
    if kind == Primary then p + [task] + r else p + r + [task]
  }

  lemma PlacedOk(p: seq<Task>, r: seq<Task>, task: Task, kind: TaskType, cs: seq<Tuned>,
                 utilization: seq<real>, levels: nat)
    requires CoreOk(p + r + [task], cs, utilization, levels) && cs == Snap(p + r + [task])
    ensures CoreOk(Placed(p, r, task, kind), Snap(Placed(p, r, task, kind)), utilization, levels)
  {
    if kind == Primary {
      hide TotalUtil, TotalDbf, ValidTuned, Settled;
      var sp, sr, st := Snap(p), Snap(r), Tuned(task.spec, task.vd);
      assert cs == sp + sr + [st];
      assert Snap(p + [task] + r) == sp + [st] + sr;
      PartsValid(sp, sr, st, levels);
      MoveLast(sp, sr, st, levels);
      SettledReordered(sp + sr + [st], sp + [st] + sr, levels);
      DistinctMoved(p, r, task);
    }
  }

  lemma PartsValid(p: seq<Tuned>, r: seq<Tuned>, t: Tuned, levels: nat)
    requires AllValid(p + r + [t], levels)
    ensures AllValid(p, levels) && AllValid(r, levels) && ValidTuned(t, levels)
  {
    hide ValidTuned;
    var a := p + r + [t];
    assert forall i :: 0 <= i < |p| ==> a[i] == p[i];
    assert forall i :: 0 <= i < |r| ==> a[|p| + i] == r[i];
    assert a[|p| + |r|] == t;
  }

  lemma DistinctMoved(p: seq<Task>, r: seq<Task>, t: Task)
    requires Distinct(p + r + [t]) && DistinctIds(p + r + [t])
    ensures Distinct(p + [t] + r) && DistinctIds(p + [t] + r)
  {
    var a, b := p + r + [t], p + [t] + r;
    forall i, j | 0 <= i < j < |b| ensures b[i] != b[j] && b[i].spec.id != b[j].spec.id {
      var i' := if i < |p| then i else if i == |p| then |p| + |r| else i - 1;
      var j' := if j < |p| then j else if j == |p| then |p| + |r| else j - 1;
      assert b[i] == a[i'] && b[j] == a[j'] && i' != j';
    }
  }

  lemma AdmissibleNow(ts: seq<Task>, levels: nat)
    requires AllValid(Snap(ts), levels) && Settled(Snap(ts), levels)
    ensures Admissible(ts, levels)
  {
  }

  /** Puts every deadline back to the task's own and tunes all levels. */
  method RetuneAll(ts: seq<Task>, task: Task, utilization: seq<real>, levels: nat) returns (ok: bool)
    requires Distinct(ts) && AllValid(Snap(ts), levels)
    requires ValidSpec(task.spec, levels) && |utilization| == levels
    requires forall m :: 0 <= m < levels ==>
               && utilization[m] <= 1.0
               && TotalUtil(Snap(ts), m, levels) == utilization[m] + TaskUtil(task.spec, m, levels)
    modifies ts
    ensures AllValid(Snap(ts), levels) && AllValid(Starts(SpecsOf(ts), levels), levels)
    ensures ok ==> Settled(Snap(ts), levels) && Admissible(ts, levels)
    ensures ok ==> Accepted(SpecsOf(ts), Snap(ts), task.spec, utilization, levels)
    ensures ok <==> !Refused(SpecsOf(ts), task.spec, utilization, levels)
    ensures PassesUntuned(Starts(SpecsOf(ts), levels), levels) ==> ok && Untuned(ts, levels)
  {
    hide *;
    ghost var before, specs := Snap(ts), SpecsOf(ts);
    ResetAll(ts, levels);
    ResetStarts(before, Snap(ts), levels);
    SpecsSnap(ts);
    LevelsStart(Snap(ts), levels);
    SameLists(specs, Snap(ts), levels);
    ok := TuneLevels(ts, task, utilization, levels);
    if ok {
      AdmissibleNow(ts, levels);
      StartsUntuned(ts, levels);
    }
    UntunedOutcome(specs, Snap(ts), task.spec, utilization, levels);
  }

  class Core {
    const id: nat
    const processorId: nat
    const levels: nat
    var primaries: seq<Task>
    var replicas: seq<Task>
    var utilization: seq<real>

    constructor (id: nat, processorId: nat, levels: nat)
      requires levels > 0
      ensures this.id == id && this.processorId == processorId && this.levels == levels
      ensures primaries == [] && replicas == []
      ensures Valid()
    {
      this.id := id;
      this.processorId := processorId;
      this.levels := levels;
      primaries := [];
      replicas := [];
      utilization := seq(levels, _ => 0.0);
    }

    function Assigned(): seq<Task>
      reads this
    {
      primaries + replicas
    }

    ghost predicate Valid()
      reads this, Assigned()
    {
      CoreOk(Assigned(), Snap(Assigned()), utilization, levels)
    }

    /** Adds the newcomer's share to the recorded utilization of every level it runs in. */
    method AddUtilization(t: TaskSpec)
      requires ValidSpec(t, levels) && |utilization| == levels
      modifies this`utilization
      ensures |utilization| == levels
      ensures forall m :: 0 <= m < levels ==>
                utilization[m] == old(utilization)[m] + TaskUtil(t, m, levels)
    {
      for n := 0 to levels
        invariant |utilization| == levels
        invariant forall m :: 0 <= m < n ==>
                    utilization[m] == old(utilization)[m] + TaskUtil(t, m, levels)
        invariant forall m :: n <= m < levels ==> utilization[m] == old(utilization)[m]
      {
        if t.crit >= n {
          utilization := utilization[n := utilization[n] + t.wcet[n] as real / t.period as real];
        }
      }
    }

    /** Tries to place a task on this core. On failure, and when the result is not to be kept,
        every deadline, both lists and the utilizations are as before. */
    method TuneSystem(task: Task, allocationType: TaskType, commit: bool) returns (ok: bool)
      requires Valid() && Newcomer(Assigned(), task, levels)
      modifies this, Assigned(), task
      ensures Valid()
      ensures !ok || !commit ==>
                && primaries == old(primaries) && replicas == old(replicas)
                && utilization == old(utilization)
                && Snap(Assigned() + [task]) == old(Snap(Assigned() + [task]))
      ensures ok ==> Admissible(old(Assigned()) + [task], levels)
      ensures AllValid(Starts(SpecsOf(old(Assigned()) + [task]), levels), levels)
      ensures PassesUntuned(Starts(SpecsOf(old(Assigned()) + [task]), levels), levels) ==>
                ok && (commit ==> Untuned(old(Assigned()) + [task], levels))
      ensures old(|utilization|) == levels
      ensures ok <==> !Refused(SpecsOf(old(Assigned()) + [task]), task.spec, old(utilization), levels)
      ensures ok && commit ==>
                Accepted(SpecsOf(old(Assigned()) + [task]), Snap(old(Assigned()) + [task]), task.spec,
                    old(utilization), levels)
      ensures ok && commit ==>
                && primaries == old(primaries) + (if allocationType == Primary then [task] else [])
                && replicas == old(replicas) + (if allocationType == Replica then [task] else [])
      ensures ok && commit ==>
                ValidSpec(task.spec, levels) && utilization == WithShare(old(utilization), task.spec, levels)
    {
      hide *;
      ghost var ts := Assigned();
      ghost var cs := Snap(ts);
      CoreFacts();
      OfferedList(ts, cs, task, utilization, levels);
      var affected := primaries + replicas + [task];
      ghost var before := Snap(affected);
      var originals := SaveDeadlines(affected);
      assert affected == ts + [task];
      ok := RetuneAll(affected, task, utilization, levels);
      if !ok || !commit {
        RestoreDeadlines(affected, originals, before);
        SnapPrefix(ts, task, cs, Tuned(task.spec, old(task.vd)));
        CoreFacts();
        return;
      }
      Place(task, allocationType, before);
    }

    /** Appends the tuned newcomer to its list and to the recorded utilization. */
    method Place(task: Task, allocationType: TaskType, ghost before: seq<Tuned>)
      requires levels > 0 && Distinct(Assigned() + [task]) && DistinctIds(Assigned() + [task])
      requires AllValid(before, levels) && |before| == |Assigned()| + 1
      requires AllValid(Snap(Assigned() + [task]), levels) && Settled(Snap(Assigned() + [task]), levels)
      requires forall i :: 0 <= i < |before| ==> before[i].task == Snap(Assigned() + [task])[i].task
      requires ValidSpec(task.spec, levels) && |utilization| == levels
      requires forall m :: 0 <= m < levels ==>
                 TotalUtil(before, m, levels) == utilization[m] + TaskUtil(task.spec, m, levels)
      modifies this
      ensures Valid()
      ensures primaries == old(primaries) + (if allocationType == Primary then [task] else [])
      ensures replicas == old(replicas) + (if allocationType == Replica then [task] else [])
      ensures utilization == WithShare(old(utilization), task.spec, levels)
    {
      hide *;
      ghost var p, r, ts, was := primaries, replicas, Assigned(), utilization;
      ghost var tuned := Snap(ts + [task]);
      CoreFacts();
      PlacedLists(p, r, task, allocationType);
      if allocationType == Primary {
        primaries := primaries + [task];
      }
      if allocationType == Replica {
        replicas := replicas + [task];
      }
      AddUtilization(task.spec);
      SharesAre(was, utilization, task.spec, levels);
      TunedOk(ts, task, before, tuned, was, utilization, levels);
      PlacedOk(p, r, task, allocationType, tuned, utilization, levels);
      CoreFacts();
    }

    lemma CoreFacts()
      ensures Assigned() == primaries + replicas
      ensures Valid() <==> CoreOk(Assigned(), Snap(Assigned()), utilization, levels)
    {
    }
  }

  lemma SharesAre(was: seq<real>, now: seq<real>, t: TaskSpec, levels: nat)
    requires ValidSpec(t, levels) && |was| == |now| == levels
    requires forall m :: 0 <= m < levels ==> now[m] == was[m] + TaskUtil(t, m, levels)
    ensures now == WithShare(was, t, levels)
  {
    hide TaskUtil, ValidSpec;
  }

  lemma SnapPrefix(ts: seq<Task>, task: Task, cs: seq<Tuned>, c: Tuned)
    requires |cs| == |ts| && Snap(ts + [task]) == cs + [c]
    ensures Snap(ts) == cs
  {
    forall i | 0 <= i < |ts| ensures Snap(ts)[i] == cs[i] {
      assert (ts + [task])[i] == ts[i];
      assert Snap(ts + [task])[i] == (cs + [c])[i];
    }
  }

  lemma TunedOk(ts: seq<Task>, task: Task, before: seq<Tuned>, tuned: seq<Tuned>,
                was: seq<real>, utilization: seq<real>, levels: nat)
    requires levels > 0 && Distinct(ts + [task]) && DistinctIds(ts + [task])
    requires AllValid(before, levels) && AllValid(tuned, levels) && Settled(tuned, levels)
    requires |before| == |tuned| == |ts| + 1
    requires forall i :: 0 <= i < |before| ==> before[i].task == tuned[i].task
    requires ValidSpec(task.spec, levels) && |was| == |utilization| == levels
    requires forall m :: 0 <= m < levels ==>
               && TotalUtil(before, m, levels) == was[m] + TaskUtil(task.spec, m, levels)
               && utilization[m] == was[m] + TaskUtil(task.spec, m, levels)
    ensures CoreOk(ts + [task], tuned, utilization, levels)
  {
    hide TotalUtil, TotalDbf, TaskUtil, PairSettled, ValidTuned, Settled;
    forall m | 0 <= m < levels ensures utilization[m] == TotalUtil(tuned, m, levels) {
      SameTasksUtil(tuned, before, m, levels);
    }
  }

  lemma PlacedLists(p: seq<Task>, r: seq<Task>, task: Task, kind: TaskType)
    ensures kind == Primary ==> Placed(p, r, task, kind) == (p + [task]) + r
    ensures kind == Replica ==> Placed(p, r, task, kind) == p + (r + [task])
    ensures kind == Primary || kind == Replica
  {
  }
}
