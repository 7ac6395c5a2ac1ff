/** Demand-bound functions of the offline deadline tuner, per task and summed over a core.
    A pair index `m` stands for the modes (m, m+1); the index -1 stands for the steady state of
    mode 0, before any mode change. */
module Demand {
  import opened Numbers

  /** The fixed parameters of a task. */
  datatype TaskSpec = TaskSpec(id: nat, period: int, deadline: int, crit: nat, wcet: seq<int>)

  /** A task together with its current virtual deadline per level. */
  datatype Tuned = Tuned(task: TaskSpec, vd: seq<int>)

  predicate ValidSpec(t: TaskSpec, levels: nat) {
    && 1 <= t.deadline <= t.period
    && t.crit < levels
    && |t.wcet| == levels
    && (forall i :: 0 <= i < levels ==> 1 <= t.wcet[i])
    && (forall i, j :: 0 <= i <= j < levels ==> t.wcet[i] <= t.wcet[j])
  }

  predicate ValidTuned(c: Tuned, levels: nat) {
    && ValidSpec(c.task, levels)
    && |c.vd| == levels
    && (forall i :: 0 <= i < levels ==> 1 <= c.vd[i] <= c.task.deadline)
  }

  predicate ValidPairIndex(m: int, levels: nat) {
    -1 <= m < levels - 1
  }

  /** The deadlines of one task at the modes m and m+1 are in order and leave room for the
      execution time at mode m. */
  predicate PairReady(c: Tuned, m: int, levels: nat)
    requires ValidTuned(c, levels) && ValidPairIndex(m, levels)
  {
    m >= 0 && c.task.crit > m ==> c.task.wcet[m] <= c.vd[m] <= c.vd[m + 1]
  }

  // ---- demand of one task -------------------------------------------------------------------

  function Dbf(c: Tuned, m: int, l: int, levels: nat): int
    requires ValidTuned(c, levels) && ValidPairIndex(m, levels)
  {
    var t := c.task;
    if l < 0 then 0
    else if t.crit < m + 1 then 0
    else if m == -1 then
      Max(((l - c.vd[0]) / t.period + 1) * t.wcet[0], 0)
    else
      var full := Max(((l - (c.vd[m + 1] - c.vd[m])) / t.period + 1) * t.wcet[m + 1], 0);
      var x := l % t.period;
      var done :=
        if c.vd[m + 1] > x && x >= c.vd[m + 1] - c.vd[m]
        then t.wcet[m] - x + c.vd[m + 1] - c.vd[m]
        else 0;
      full - Max(0, Min(done, t.wcet[m + 1]))
  }

  /** Distance from the start of a period window to the first deadline inside it. */
  function Offset(c: Tuned, m: int, levels: nat): int
    requires ValidTuned(c, levels) && ValidPairIndex(m, levels)
  {
    if m == -1 then c.vd[0] else c.vd[m + 1] - c.vd[m]
  }

  /** Demand inside one period window: nothing before the offset, then the whole execution time
      except for the part that has been executed before the mode change. */
  function WindowDemand(c: Tuned, m: int, x: int, levels: nat): int
    requires ValidTuned(c, levels) && ValidPairIndex(m, levels)
  {
    var d := Offset(c, m, levels);
    if x < d then 0
    else if m == -1 then c.task.wcet[0]
    else c.task.wcet[m + 1] - Max(0, c.task.wcet[m] - (x - d))
  }

  lemma OffsetBounds(c: Tuned, m: int, levels: nat)
    requires ValidTuned(c, levels) && ValidPairIndex(m, levels) && PairReady(c, m, levels)
    requires c.task.crit > m
    ensures 0 <= Offset(c, m, levels) <= c.task.period
  {
  }

  lemma WindowDemandBounds(c: Tuned, m: int, x: int, y: int, levels: nat)
    requires ValidTuned(c, levels) && ValidPairIndex(m, levels) && PairReady(c, m, levels)
    requires c.task.crit > m && x <= y
    ensures 0 <= WindowDemand(c, m, x, levels) <= WindowDemand(c, m, y, levels)
    ensures WindowDemand(c, m, y, levels) <= c.task.wcet[m + 1]
  {
  }

  /** Number of windows whose first deadline has been reached. */
  lemma WindowCount(l: int, d: int, period: int, k: int, x: int)
    requires period > 0 && 0 <= d <= period && l == period * k + x && 0 <= x < period
    ensures (l - d) / period + 1 == if x < d then k else k + 1
  {
    if x < d {
      assert period * (k - 1) == period * k - period;
      DivModUnique(l - d, period, k - 1, x - d + period);
    } else {
      DivModUnique(l - d, period, k, x - d);
    }
  }

  lemma FullWindows(l: int, d: int, period: int, k: int, x: int, w: int)
    requires period > 0 && 0 <= d <= period && 0 <= k && 0 <= x < period && 0 <= w
    requires l == period * k + x
    ensures Max(((l - d) / period + 1) * w, 0) == k * w + (if x < d then 0 else w)
  {
    WindowCount(l, d, period, k, x);
    MulWeak(w, 0, k);
    assert (k + 1) * w == k * w + w;
  }

  /** Independent form of the demand: whole windows plus the demand of the last one. */
  lemma DbfClosedForm(c: Tuned, m: int, k: int, x: int, levels: nat)
    requires ValidTuned(c, levels) && ValidPairIndex(m, levels) && PairReady(c, m, levels)
    requires c.task.crit > m && 0 <= k && 0 <= x < c.task.period
    ensures c.task.period * k >= 0
    ensures Dbf(c, m, c.task.period * k + x, levels)
         == k * c.task.wcet[m + 1] + WindowDemand(c, m, x, levels)
  {
    var p, d := c.task.period, Offset(c, m, levels);
    var l := p * k + x;
    MulWeak(p, 0, k);
    OffsetBounds(c, m, levels);
    FullWindows(l, d, p, k, x, c.task.wcet[m + 1]);
    DivModUnique(l, p, k, x);
  }

  lemma Decompose(l: int, period: int) returns (k: int, x: int)
    requires 0 <= l && 0 < period
    ensures l == period * k + x && 0 <= k && 0 <= x < period
  {
    k, x := l / period, l % period;
    QuotientMonotone(period, 0, 0, k, x);
  }

  /** Demand is never negative and never shrinks as the interval grows. */
  lemma DbfMonotone(c: Tuned, m: int, l1: int, l2: int, levels: nat)
    requires ValidTuned(c, levels) && ValidPairIndex(m, levels) && PairReady(c, m, levels)
    requires l1 <= l2
    ensures 0 <= Dbf(c, m, l1, levels) <= Dbf(c, m, l2, levels)
  {
    if l2 >= 0 && c.task.crit > m {
      var p, w := c.task.period, c.task.wcet[m + 1];
      var k2, x2 := Decompose(l2, p);
      DbfClosedForm(c, m, k2, x2, levels);
      WindowDemandBounds(c, m, x2, x2, levels);
      MulWeak(w, 0, k2);
      if l1 >= 0 {
        var k1, x1 := Decompose(l1, p);
        DbfClosedForm(c, m, k1, x1, levels);
        WindowDemandBounds(c, m, x1, x1, levels);
        QuotientMonotone(p, k1, x1, k2, x2);
        if k1 == k2 {
          WindowDemandBounds(c, m, x1, x2, levels);
        } else {
          MulStrict(w, k1, k2);
        }
        MulWeak(w, 0, k1);
      }
    }
  }

  /** Demand grows by the same amount in every block of whole periods. */
  lemma DbfPeriodic(c: Tuned, m: int, l: int, j: int, levels: nat)
    requires ValidTuned(c, levels) && ValidPairIndex(m, levels) && PairReady(c, m, levels)
    requires 0 <= l && 0 <= j && c.task.crit > m
    ensures Dbf(c, m, l + c.task.period * j, levels) == Dbf(c, m, l, levels) + j * c.task.wcet[m + 1]
  {
    var p, w := c.task.period, c.task.wcet[m + 1];
    var k, x := Decompose(l, p);
    DbfClosedForm(c, m, k, x, levels);
    DbfClosedForm(c, m, k + j, x, levels);
    assert p * (k + j) == p * k + p * j;
    assert (k + j) * w == k * w + j * w;
  }

  /** Linear upper bound on the demand of one task. */
  lemma DbfDensity(c: Tuned, m: int, l: int, levels: nat)
    requires ValidTuned(c, levels) && ValidPairIndex(m, levels) && PairReady(c, m, levels)
    requires 0 <= l && c.task.crit > m
    ensures c.task.period * Dbf(c, m, l, levels)
         <= c.task.wcet[m + 1] * (l + (c.task.period - Offset(c, m, levels)))
  {
    var p, w, d := c.task.period, c.task.wcet[m + 1], Offset(c, m, levels);
    var k, x := Decompose(l, p);
    DbfClosedForm(c, m, k, x, levels);
    OffsetBounds(c, m, levels);
    WindowDemandBounds(c, m, x, x, levels);
    var s := WindowDemand(c, m, x, levels);
    DensityArithmetic(p, w, d, k, x, s);
  }

  lemma DensityArithmetic(p: int, w: int, d: int, k: int, x: int, s: int)
    requires 0 < p && 0 <= w && 0 <= x && 0 <= d <= p
    requires 0 <= s <= w && (x < d ==> s == 0)
    ensures p * (k * w + s) <= w * ((p * k + x) + (p - d))
  {
    assert p * (k * w + s) == w * (p * k) + p * s by {
      assert p * (k * w) == w * (p * k);
    }
    assert w * ((p * k + x) + (p - d)) == w * (p * k) + w * (x + (p - d));
    if x < d {
      MulWeak(w, 0, x + (p - d));
    } else {
      MulWeak(p, s, w);
      MulWeak(w, p, x + (p - d));
    }
  }

  // ---- the effect of lowering one virtual deadline ------------------------------------------

  function Lower(c: Tuned, m: nat): Tuned
    requires m < |c.vd|
  {
    c.(vd := c.vd[m := c.vd[m] - 1])
  }

  /** Lowering the deadline at mode m by one delays the demand of the pair (m, m+1) by one. */
  lemma LowerShiftsDemand(c: Tuned, m: nat, l: int, levels: nat)
    requires ValidTuned(c, levels) && ValidPairIndex(m, levels)
    requires c.task.crit > m && c.task.wcet[m] < c.vd[m] <= c.vd[m + 1]
    requires 0 <= l
    ensures ValidTuned(Lower(c, m), levels) && PairReady(Lower(c, m), m, levels)
    ensures Dbf(Lower(c, m), m, l, levels) == Dbf(c, m, l - 1, levels)
  {
    var c', p, w := Lower(c, m), c.task.period, c.task.wcet[m + 1];
    var k, x := Decompose(l, p);
    DbfClosedForm(c', m, k, x, levels);
    if x > 0 {
      DbfClosedForm(c, m, k, x - 1, levels);
    } else if k > 0 {
      DbfClosedForm(c, m, k - 1, p - 1, levels);
      assert p * (k - 1) + (p - 1) == l - 1 by {
        assert p * (k - 1) == p * k - p;
      }
      assert k * w == (k - 1) * w + w;
    }
  }

  // ---- demand and utilization of a core -----------------------------------------------------

  predicate AllValid(cs: seq<Tuned>, levels: nat) {
    forall i :: 0 <= i < |cs| ==> ValidTuned(cs[i], levels)
  }

  predicate AllReady(cs: seq<Tuned>, m: int, levels: nat)
    requires AllValid(cs, levels) && ValidPairIndex(m, levels)
  {
    forall i :: 0 <= i < |cs| ==> PairReady(cs[i], m, levels)
  }

  function TotalDbf(cs: seq<Tuned>, m: int, l: int, levels: nat): int
    requires AllValid(cs, levels) && ValidPairIndex(m, levels)
  {
    if cs == [] then 0
    else Dbf(cs[0], m, l, levels) + TotalDbf(cs[1..], m, l, levels)
  }

  /** Utilization of one task at a mode; tasks below the mode do not run in it. */
  function TaskUtil(t: TaskSpec, mode: nat, levels: nat): real
    requires ValidSpec(t, levels) && mode < levels
  {
    if t.crit < mode then 0.0 else t.wcet[mode] as real / t.period as real
  }

  function TotalUtil(cs: seq<Tuned>, mode: nat, levels: nat): real
    requires AllValid(cs, levels) && mode < levels
  {
    if cs == [] then 0.0
    else TaskUtil(cs[0].task, mode, levels) + TotalUtil(cs[1..], mode, levels)
  }

  /** The tasks that still run at a mode. */
  function Above(cs: seq<Tuned>, mode: nat): seq<Tuned> {
    if cs == [] then []
    else (if cs[0].task.crit >= mode then [cs[0]] else []) + Above(cs[1..], mode)
  }

  lemma {:induction false} AboveMembers(cs: seq<Tuned>, mode: nat)
    ensures forall c :: c in Above(cs, mode) <==> c in cs && c.task.crit >= mode
  {
    if cs != [] {
      AboveMembers(cs[1..], mode);
      assert cs == [cs[0]] + cs[1..];
    }
  }

  lemma {:induction false} AboveSums(cs: seq<Tuned>, m: int, l: int, levels: nat)
    requires AllValid(cs, levels) && ValidPairIndex(m, levels) && AllReady(cs, m, levels)
    ensures AllValid(Above(cs, m + 1), levels) && AllReady(Above(cs, m + 1), m, levels)
    ensures TotalDbf(Above(cs, m + 1), m, l, levels) == TotalDbf(cs, m, l, levels)
    ensures TotalUtil(Above(cs, m + 1), m + 1, levels) == TotalUtil(cs, m + 1, levels)
  {
    if cs != [] {
      AboveSums(cs[1..], m, l, levels);
      var rest := Above(cs[1..], m + 1);
      var all := Above(cs, m + 1);
      if cs[0].task.crit >= m + 1 {
        assert all == [cs[0]] + rest && all[1..] == rest;
      } else {
        assert all == rest;
      }
    }
  }

  lemma {:induction false} TotalUtilBounds(cs: seq<Tuned>, mode: nat, levels: nat)
    requires AllValid(cs, levels) && mode < levels
    ensures TotalUtil(cs, mode, levels) >= 0.0
  {
    if cs != [] {
      TotalUtilBounds(cs[1..], mode, levels);
      var t := cs[0].task;
      assert TaskUtil(t, mode, levels) >= 0.0;
    }
  }

  lemma {:induction false} TotalDbfMonotone(cs: seq<Tuned>, m: int, l1: int, l2: int, levels: nat)
    requires AllValid(cs, levels) && ValidPairIndex(m, levels) && AllReady(cs, m, levels)
    requires l1 <= l2
    ensures 0 <= TotalDbf(cs, m, l1, levels) <= TotalDbf(cs, m, l2, levels)
  {
    if cs != [] {
      DbfMonotone(cs[0], m, l1, l2, levels);
      TotalDbfMonotone(cs[1..], m, l1, l2, levels);
    }
  }

  lemma {:induction false} TotalDbfUpdate(cs: seq<Tuned>, i: nat, c: Tuned, m: int, l: int, levels: nat)
    requires AllValid(cs, levels) && ValidPairIndex(m, levels)
    requires i < |cs| && ValidTuned(c, levels)
    ensures TotalDbf(cs[i := c], m, l, levels)
         == TotalDbf(cs, m, l, levels) - Dbf(cs[i], m, l, levels) + Dbf(c, m, l, levels)
  {
    var cs' := cs[i := c];
    if i == 0 {
      assert cs'[1..] == cs[1..];
    } else {
      TotalDbfUpdate(cs[1..], i - 1, c, m, l, levels);
      assert cs'[1..] == cs[1..][i - 1 := c];
    }
  }

  /** The reduction of demand at `l` that lowering the deadline of `c` brings. */
  function Gain(c: Tuned, m: nat, l: int, levels: nat): int
    requires ValidTuned(c, levels) && ValidPairIndex(m, levels)
  {
    Dbf(c, m, l, levels) - Dbf(c, m, l - 1, levels)
  }

  /** The quantity the greedy step maximises is exactly the demand it removes. */
  lemma GainIsRemovedDemand(cs: seq<Tuned>, i: nat, m: nat, l: int, levels: nat)
    requires AllValid(cs, levels) && ValidPairIndex(m, levels) && AllReady(cs, m, levels)
    requires i < |cs| && cs[i].task.crit > m && cs[i].task.wcet[m] < cs[i].vd[m]
    requires 0 <= l
    ensures ValidTuned(Lower(cs[i], m), levels)
    ensures TotalDbf(cs[i := Lower(cs[i], m)], m, l, levels)
         == TotalDbf(cs, m, l, levels) - Gain(cs[i], m, l, levels)
    ensures Gain(cs[i], m, l, levels) >= 0
  {
    LowerShiftsDemand(cs[i], m, l, levels);
    TotalDbfUpdate(cs, i, Lower(cs[i], m), m, l, levels);
    DbfMonotone(cs[i], m, l - 1, l, levels);
  }
}
