/** What the slack analysis counts, in terms of the arrivals and the work themselves. */
module SlackMeaning {
  import opened Common
  import opened Numbers
  import opened Slack

  // ---- arrivals -----------------------------------------------------------------------------

  /** `a` is an arrival after `tstart` of a task with this period: tasks arrive at the multiples of their
      period. */
  predicate ArrivesAt(a: nat, tstart: nat, period: nat)
    requires period > 0
  {
    a % period == 0 && tstart < a
  }

  lemma MultipleOf(period: nat, q: int)
    requires period > 0
    ensures (q * period) % period == 0 && q * period / period == q
  {
    DivModUnique(q * period, period, q, 0);
  }

  lemma NextMultiple(period: nat, a: int, b: int)
    requires period > 0 && a % period == 0 && b % period == 0 && a < b
    ensures a + period <= b && (a + period) % period == 0
  {
    var i, j := a / period, b / period;
    assert a == period * i && b == period * j;
    if j <= i {
      MulWeak(period, j, i);
    }
    MulStrict(period, i, j);
    assert period * i + period == (i + 1) * period;
    MultipleOf(period, i + 1);
  }

  /** The first arrival looked at is the least one after the start. */
  lemma FirstArrivalExact(tstart: nat, period: nat)
    requires period > 0
    ensures ArrivesAt(FirstArrival(tstart, period), tstart, period)
    ensures forall a: nat :: ArrivesAt(a, tstart, period) ==> FirstArrival(tstart, period) <= a
  {
    var q, r := tstart / period, tstart % period;
    FirstArrivalLater(tstart, period);
    MultipleOf(period, q + 1);
    forall a: nat | ArrivesAt(a, tstart, period) ensures FirstArrival(tstart, period) <= a {
      MultipleOf(period, q);
      assert tstart == q * period + r;
      NextMultiple(period, q * period, a);
      assert (q + 1) * period == q * period + period;
    }
  }

  /** The arrivals from `first` on with deadlines no later than `d`. */
  ghost function ArrivalsFrom(first: nat, period: nat, tuned: nat, d: nat): set<nat>
    requires period > 0
  {
    set a: nat | a <= d && first <= a && a % period == 0 && a + tuned <= d
  }

  lemma NextArrivalFrom(first: nat, period: nat, tuned: nat, d: nat)
    requires period > 0 && first % period == 0
    ensures (first + period) % period == 0
    ensures ArrivalsFrom(first, period, tuned, d)
         == (if first + tuned <= d then {first} else {}) + ArrivalsFrom(first + period, period, tuned, d)
  {
    NextMultiple(period, first, first + period) by { MultipleStep(period, first); }
    forall a: nat | first < a && a % period == 0 ensures first + period <= a {
      NextMultiple(period, first, a);
    }
  }

  lemma MultipleStep(period: nat, a: nat)
    requires period > 0 && a % period == 0
    ensures (a + period) % period == 0
  {
    assert a == period * (a / period);
    assert period * (a / period) + period == (a / period + 1) * period;
    MultipleOf(period, a / period + 1);
  }

  lemma {:induction false} ReleasesFrom(first: nat, period: nat, tuned: nat, d: nat)
    requires period > 0 && first % period == 0
    ensures Releases(first, period, tuned, d) == |ArrivalsFrom(first, period, tuned, d)|
    decreases d - first
  {
    hide ArrivalsFrom;
    NextArrivalFrom(first, period, tuned, d);
    if first + tuned <= d {
      ReleasesFrom(first + period, period, tuned, d);
      assert first !in ArrivalsFrom(first + period, period, tuned, d) by { FromLater(first, period, tuned, d); }
    } else {
      NoneFrom(first, period, tuned, d);
    }
  }

  lemma FromLater(first: nat, period: nat, tuned: nat, d: nat)
    requires period > 0
    ensures first !in ArrivalsFrom(first + period, period, tuned, d)
  {
  }

  lemma NoneFrom(first: nat, period: nat, tuned: nat, d: nat)
    requires period > 0 && first + tuned > d
    ensures ArrivalsFrom(first, period, tuned, d) == {}
  {
  }

  /** The arrivals after `tstart` whose deadlines are no later than `d`. */
  ghost function Due(tstart: nat, period: nat, tuned: nat, d: nat): set<nat>
    requires period > 0
  {
    set a: nat | a <= d && ArrivesAt(a, tstart, period) && a + tuned <= d
  }

  /** The arrivals counted towards the demand at `d` are exactly those after the start that are due. */
  lemma ReleasesExact(tstart: nat, period: nat, tuned: nat, d: nat)
    requires period > 0
    ensures Releases(FirstArrival(tstart, period), period, tuned, d) == |Due(tstart, period, tuned, d)|
  {
    hide FirstArrival;
    FirstArrivalExact(tstart, period);
    var first := FirstArrival(tstart, period);
    ReleasesFrom(first, period, tuned, d);
    assert Due(tstart, period, tuned, d) == ArrivalsFrom(first, period, tuned, d);
  }

  // ---- checkpoints --------------------------------------------------------------------------

  lemma {:induction false} JobDeadlinesExact(jobs: seq<Job>, level: nat, tstart: nat, d: nat)
    requires JobsOk(jobs, level)
    ensures d in JobDeadlines(jobs, level, tstart) <==>
              tstart < d && exists j :: j in jobs && level < |j.relative| && d == j.arrival + j.relative[level]
  {
    if jobs != [] {
      var front, last := jobs[..|jobs| - 1], jobs[|jobs| - 1];
      JobDeadlinesExact(front, level, tstart, d);
      assert jobs == front + [last];
    }
  }

  lemma {:induction false} ArrivalDeadlinesExact(first: nat, period: nat, tuned: nat, limit: nat, d: nat)
    requires period > 0 && first % period == 0
    ensures d in ArrivalDeadlines(first, period, tuned, limit) <==>
              d <= limit && tuned <= d && d - tuned in ArrivalsFrom(first, period, tuned, limit)
    decreases limit - first
  {
    hide ArrivalsFrom;
    NextArrivalFrom(first, period, tuned, limit);
    if first + tuned <= limit {
      ArrivalDeadlinesExact(first + period, period, tuned, limit, d);
    } else {
      NoneFrom(first, period, tuned, limit);
    }
  }

  /** The checkpoints of a task are the deadlines, within the horizon, of its arrivals after the start. */
  lemma OwnDeadlinesExact(t: Task, level: nat, tstart: nat, horizon: nat, d: nat)
    requires t.period > 0 && level < |t.tuned|
    ensures d in OwnDeadlines(t, level, tstart, horizon) <==> OwnDeadline(t, level, tstart, horizon, d)
  {
    hide FirstArrival, ArrivalDeadlines;
    FirstArrivalExact(tstart, t.period);
    ArrivalDeadlinesExact(FirstArrival(tstart, t.period), t.period, t.tuned[level], tstart + horizon, d);
    if d >= t.tuned[level] {
      var a := d - t.tuned[level];
      assert a in ArrivalsFrom(FirstArrival(tstart, t.period), t.period, t.tuned[level], tstart + horizon)
             <==> ArrivesAt(a, tstart, t.period) && d <= tstart + horizon;
    }
  }

  /** `d` is the deadline of an arrival of the task after the start and within the horizon. */
  ghost predicate OwnDeadline(t: Task, level: nat, tstart: nat, horizon: nat, d: nat) {
    && t.period > 0 && level < |t.tuned| && level <= t.crit && d <= tstart + horizon
    && exists a: nat :: ArrivesAt(a, tstart, t.period) && d == a + t.tuned[level]
  }

  lemma {:induction false} TaskDeadlinesExact(tasks: seq<Task>, level: nat, tstart: nat, horizon: nat, d: nat)
    requires TasksOk(tasks, level)
    ensures d in TaskDeadlines(tasks, level, tstart, horizon) <==>
              exists t :: t in tasks && OwnDeadline(t, level, tstart, horizon, d)
  {
    hide OwnDeadline, OwnDeadlines;
    if tasks != [] {
      var front, last := tasks[..|tasks| - 1], tasks[|tasks| - 1];
      TaskDeadlinesExact(front, level, tstart, horizon, d);
      OwnDeadlinesExact(last, level, tstart, horizon, d);
      assert tasks == front + [last];
    }
  }

  /** The job is one the analysis has to take into account. */
  predicate Present(v: View, extra: Option<Job>, j: Job) {
    extra == Some(j) || v.running == Some(j) || j in v.ready || j in v.replicas || j in v.pending
  }

  /** The checkpoints are exactly the deadlines after the start of the jobs present, and of the arrivals
      within the horizon. */
  lemma CheckpointsExact(v: View, extra: Option<Job>, level: nat, tstart: nat, horizon: nat, d: nat)
    requires JobsOk(Jobs(v, extra), level) && TasksOk(v.tasks, level)
    ensures d in Checkpoints(v, extra, level, tstart, horizon) <==>
              || (tstart < d && exists j :: Present(v, extra, j) && level < |j.relative|
                                            && d == j.arrival + j.relative[level])
              || exists t :: t in v.tasks && OwnDeadline(t, level, tstart, horizon, d)
  {
    hide OwnDeadline, JobDeadlines, TaskDeadlines;
    JobDeadlinesExact(Jobs(v, extra), level, tstart, d);
    TaskDeadlinesExact(v.tasks, level, tstart, horizon, d);
    assert forall j :: j in Jobs(v, extra) <==> Present(v, extra, j);
  }

  // ---- work ---------------------------------------------------------------------------------

  /** `n` is the least number of ticks in which `work` is done at speed `scale`. */
  predicate LeastTicks(n: int, work: real, scale: real) {
    && 0 <= n && work <= n as real * scale
    && (n > 0 ==> (n - 1) as real * scale < work)
  }

  /** The ticks that `work` takes at speed `scale`. */
  function Ticks(work: real, scale: real): (n: nat)
    requires scale > 0.0
    ensures LeastTicks(n, work, scale)
    ensures forall k :: LeastTicks(k, work, scale) ==> k == n
  {
    CeilExact(work, scale);
    forall k | LeastTicks(k, work, scale) ensures k == Max(0, Ceil(work / scale)) {
      OnlyTicks(k, Max(0, Ceil(work / scale)), work, scale);
    }
    Max(0, Ceil(work / scale))
  }

  lemma OnlyTicks(k: int, n: int, work: real, scale: real)
    requires scale > 0.0 && LeastTicks(k, work, scale) && LeastTicks(n, work, scale)
    ensures k == n
  {
    if k < n {
      NotFewer(k, n, work, scale);
    } else if n < k {
      NotFewer(n, k, work, scale);
    }
  }

  lemma NotFewer(k: int, n: int, work: real, scale: real)
    requires scale > 0.0 && LeastTicks(n, work, scale) && 0 <= k < n
    ensures k as real * scale < work
  {
    var x, y := k as real, (n - 1) as real;
    assert x <= y && y * scale < work;
    Scaled(x, y, scale);
  }

  lemma CeilExact(work: real, scale: real)
    requires scale > 0.0
    ensures LeastTicks(Max(0, Ceil(work / scale)), work, scale)
  {
    var x := work / scale;
    assert x * scale == work;
    var n := Ceil(x);
    assert (n - 1) as real < x <= n as real;
    Scaled(x, n as real, scale);
    ScaledStrict((n - 1) as real, x, scale);
    if n < 0 {
      Scaled(x, 0.0, scale);
    }
  }

  lemma Scaled(a: real, b: real, scale: real)
    requires scale > 0.0 && a <= b
    ensures a * scale <= b * scale
  {
    Signs(b - a, scale);
    assert (b - a) * scale == b * scale - a * scale;
  }

  lemma ScaledStrict(a: real, b: real, scale: real)
    requires scale > 0.0 && a < b
    ensures a * scale < b * scale
  {
    assert (b - a) * scale == b * scale - a * scale;
    assert (b - a) * scale > 0.0;
  }

  /** A job due by `d` counts with the least number of ticks in which what is left of its budget is done;
      a job due later does not count. */
  lemma JobDemandExact(j: Job, level: nat, d: nat, scale: real)
    requires level < |j.relative| && level < |j.budget| && scale > 0.0
    ensures JobDemand(j, level, d, scale)
         == if j.arrival + j.relative[level] <= d then Ticks(j.budget[level] as real - j.executed, scale) as real
            else 0.0
  {
    CeilExact(j.budget[level] as real - j.executed, scale);
  }

  /** A task at or above the level counts with the ticks of its whole budget for every arrival due. */
  lemma TaskDemandExact(t: Task, level: nat, tstart: nat, d: nat, scale: real)
    requires t.period > 0 && level < |t.budget| && level < |t.tuned| && scale > 0.0
    ensures TaskDemand(t, level, tstart, d, scale)
         == if level <= t.crit
            then |Due(tstart, t.period, t.tuned[level], d)| as real * Ticks(t.budget[level] as real, scale) as real
            else 0.0
  {
    hide FirstArrival, Releases, LeastTicks, Due;
    var work := t.budget[level] as real;
    ReleasesExact(tstart, t.period, t.tuned[level], d);
    CeilExact(work, scale);
    NotNegativeTicks(work, scale);
  }

  lemma NotNegativeTicks(work: real, scale: real)
    requires scale > 0.0 && work >= 0.0
    ensures Ceil(work / scale) >= 0
  {
    var x := work / scale;
    assert x * scale == work;
    Signs(x, scale);
    CeilMonotone(0.0, x);
  }

  lemma {:induction false} JobsDemandConcat(p: seq<Job>, q: seq<Job>, level: nat, d: nat, scale: real)
    requires JobsOk(p, level) && JobsOk(q, level) && scale > 0.0
    ensures JobsOk(p + q, level)
    ensures JobsDemand(p + q, level, d, scale) == JobsDemand(p, level, d, scale) + JobsDemand(q, level, d, scale)
    decreases |q|
  {
    hide JobDemand;
    if q == [] {
      assert p + q == p;
    } else {
      var front := q[..|q| - 1];
      assert (p + q)[..|p + q| - 1] == p + front;
      JobsDemandConcat(p, front, level, d, scale);
    }
  }

  lemma {:induction false} TasksDemandConcat(p: seq<Task>, q: seq<Task>, level: nat, tstart: nat, d: nat, scale: real)
    requires TasksOk(p, level) && TasksOk(q, level) && scale > 0.0
    ensures TasksOk(p + q, level)
    ensures TasksDemand(p + q, level, tstart, d, scale)
         == TasksDemand(p, level, tstart, d, scale) + TasksDemand(q, level, tstart, d, scale)
    decreases |q|
  {
    hide TaskDemand;
    if q == [] {
      assert p + q == p;
    } else {
      var front := q[..|q| - 1];
      assert (p + q)[..|p + q| - 1] == p + front;
      TasksDemandConcat(p, front, level, tstart, d, scale);
    }
  }

  lemma OneEach(j: Job, t: Task, level: nat, tstart: nat, d: nat, scale: real)
    requires JobsOk([j], level) && TasksOk([t], level) && scale > 0.0
    ensures level < |j.relative| && level < |j.budget|
    ensures t.period > 0 && level < |t.budget| && level < |t.tuned|
    ensures JobsDemand([j], level, d, scale) == JobDemand(j, level, d, scale) && JobsDemand([], level, d, scale) == 0.0
    ensures TasksDemand([t], level, tstart, d, scale) == TaskDemand(t, level, tstart, d, scale)
    ensures TasksDemand([], level, tstart, d, scale) == 0.0
  {
    hide JobDemand, TaskDemand;
    assert [j][0] == j && [t][0] == t;
    assert JobsDemand([], level, d, scale) == 0.0 && TasksDemand([], level, tstart, d, scale) == 0.0;
  }

  /** The demand at `d` is the sum over the candidate, the running job, the three queues and the tasks of
      the core, none left out and none counted twice. */
  lemma DemandAddsUp(v: View, extra: Option<Job>, level: nat, tstart: nat, d: nat, scale: real)
    requires JobsOk(Jobs(v, extra), level) && TasksOk(v.tasks, level) && scale > 0.0
    ensures JobsOk(One(extra), level) && JobsOk(One(v.running), level)
    ensures JobsOk(v.ready, level) && JobsOk(v.replicas, level) && JobsOk(v.pending, level)
    ensures Demand(v, extra, level, tstart, d, scale)
         == JobsDemand(One(extra), level, d, scale) + JobsDemand(One(v.running), level, d, scale)
            + JobsDemand(v.ready, level, d, scale) + JobsDemand(v.replicas, level, d, scale)
            + JobsDemand(v.pending, level, d, scale) + TasksDemand(v.tasks, level, tstart, d, scale)
  {
    hide JobsDemand, TasksDemand, JobDeadlines;
    JobParts(v, extra, level, tstart);
    var e, r := One(extra), One(v.running);
    hide One, JobsOk;
    JobsDemandConcat(e, r, level, d, scale);
    JobsDemandConcat(e + r, v.ready, level, d, scale);
    JobsDemandConcat(e + r + v.ready, v.replicas, level, d, scale);
    JobsDemandConcat(e + r + v.ready + v.replicas, v.pending, level, d, scale);
  }
}
