/** The slack analysis: processor demand is compared with the time available at a finite list of
    checkpoints, which settles every instant of the horizon. */
module Slack {
  import opened Common
  import opened Numbers
  import Horizon

  /** `relative` and `budget` give the relative virtual deadline and the WCET for every level. */
  datatype Job = Job(arrival: nat, relative: seq<nat>, budget: seq<nat>, executed: real)

  /** A task allocated to the core. */
  datatype Task = Task(crit: nat, period: nat, budget: seq<nat>, tuned: seq<nat>)

  /** What the analysis sees of a core. */
  datatype View = View(running: Option<Job>, ready: seq<Job>, replicas: seq<Job>, pending: seq<Job>, tasks: seq<Task>)

  function One<T>(x: Option<T>): seq<T> {
    if x.Some? then [x.value] else []
  }

  function Jobs(v: View, extra: Option<Job>): seq<Job> {
    One(extra) + One(v.running) + v.ready + v.replicas + v.pending
  }

  predicate JobsOk(jobs: seq<Job>, level: nat) {
    forall i :: 0 <= i < |jobs| ==> level < |jobs[i].relative| && level < |jobs[i].budget|
  }

  predicate TasksOk(tasks: seq<Task>, level: nat) {
    forall i :: 0 <= i < |tasks| ==> tasks[i].period > 0 && level < |tasks[i].budget| && level < |tasks[i].tuned|
  }

  // ---- demand -------------------------------------------------------------------------------

  function Ceil(x: real): int {
    -((-x).Floor)
  }

  lemma FloorMonotone(x: real, y: real)
    requires x <= y
    ensures x.Floor <= y.Floor
  {
  }

  lemma CeilMonotone(x: real, y: real)
    requires x <= y
    ensures Ceil(x) <= Ceil(y)
  {
    FloorMonotone(-y, -x);
  }

  function JobDeadline(j: Job, level: nat): nat
    requires level < |j.relative|
  {
    j.arrival + j.relative[level]
  }

  /** The work of a job that is due by `d`, at speed `scale`. */
  function JobDemand(j: Job, level: nat, d: nat, scale: real): real
    requires level < |j.relative| && level < |j.budget| && scale > 0.0
  {
    if JobDeadline(j, level) <= d
    then Max(0, Ceil((j.budget[level] as real - j.executed) / scale)) as real
    else 0.0
  }

  function FirstArrival(tstart: nat, period: nat): nat
    requires period > 0
  {
    (tstart / period + 1) * period
  }

  /** Arrivals from `arrival` on whose deadlines are no later than `d`. */
  function Releases(arrival: nat, period: nat, tuned: nat, d: nat): nat
    requires period > 0
    decreases d - arrival
  {
    if arrival + tuned <= d then 1 + Releases(arrival + period, period, tuned, d) else 0
  }

  function TaskDemand(t: Task, level: nat, tstart: nat, d: nat, scale: real): real
    requires t.period > 0 && level < |t.budget| && level < |t.tuned| && scale > 0.0
  {
    if t.crit < level then 0.0
    else Releases(FirstArrival(tstart, t.period), t.period, t.tuned[level], d) as real
         * Ceil(t.budget[level] as real / scale) as real
  }

  function JobsDemand(jobs: seq<Job>, level: nat, d: nat, scale: real): real
    requires JobsOk(jobs, level) && scale > 0.0
  {
    if jobs == [] then 0.0
    else JobsDemand(jobs[..|jobs| - 1], level, d, scale) + JobDemand(jobs[|jobs| - 1], level, d, scale)
  }

  function TasksDemand(tasks: seq<Task>, level: nat, tstart: nat, d: nat, scale: real): real
    requires TasksOk(tasks, level) && scale > 0.0
  {
    if tasks == [] then 0.0
    else
      TasksDemand(tasks[..|tasks| - 1], level, tstart, d, scale)
      + TaskDemand(tasks[|tasks| - 1], level, tstart, d, scale)
  }

  /** All work due by `d`. */
  function Demand(v: View, extra: Option<Job>, level: nat, tstart: nat, d: nat, scale: real): real
    requires JobsOk(Jobs(v, extra), level) && TasksOk(v.tasks, level) && scale > 0.0
  {
    JobsDemand(Jobs(v, extra), level, d, scale) + TasksDemand(v.tasks, level, tstart, d, scale)
  }

  /** The time left at `d` once the work due by then is done. */
  function Left(v: View, extra: Option<Job>, level: nat, tstart: nat, d: nat, scale: real): real
    requires JobsOk(Jobs(v, extra), level) && TasksOk(v.tasks, level) && scale > 0.0
  {
    (d - tstart) as real - Demand(v, extra, level, tstart, d, scale)
  }

  // ---- the checkpoints ----------------------------------------------------------------------

  function JobDeadlines(jobs: seq<Job>, level: nat, tstart: nat): seq<nat>
    requires JobsOk(jobs, level)
  {
    if jobs == [] then []
    else
      var d := JobDeadline(jobs[|jobs| - 1], level);
      JobDeadlines(jobs[..|jobs| - 1], level, tstart) + if d > tstart then [d] else []
  }

  /** Deadlines of the arrivals from `arrival` on, up to `limit`. */
  function ArrivalDeadlines(arrival: nat, period: nat, tuned: nat, limit: nat): seq<nat>
    requires period > 0
    decreases limit - arrival
  {
    if arrival + tuned <= limit then [arrival + tuned] + ArrivalDeadlines(arrival + period, period, tuned, limit)
    else []
  }

  function OwnDeadlines(t: Task, level: nat, tstart: nat, horizon: nat): seq<nat>
    requires t.period > 0 && level < |t.tuned|
  {
    if t.crit < level then []
    else ArrivalDeadlines(FirstArrival(tstart, t.period), t.period, t.tuned[level], tstart + horizon)
  }

  function TaskDeadlines(tasks: seq<Task>, level: nat, tstart: nat, horizon: nat): seq<nat>
    requires TasksOk(tasks, level)
  {
    if tasks == [] then []
    else
      TaskDeadlines(tasks[..|tasks| - 1], level, tstart, horizon)
      + OwnDeadlines(tasks[|tasks| - 1], level, tstart, horizon)
  }

  /** Every instant after `tstart` at which the demand can change. */
  function Checkpoints(v: View, extra: Option<Job>, level: nat, tstart: nat, horizon: nat): seq<nat>
    requires JobsOk(Jobs(v, extra), level) && TasksOk(v.tasks, level)
  {
    JobDeadlines(Jobs(v, extra), level, tstart) + TaskDeadlines(v.tasks, level, tstart, horizon)
  }

  predicate NoneBetween(q: seq<nat>, d: nat, t: nat) {
    forall e :: e in q ==> !(d < e <= t)
  }

  lemma NoneBetweenConcat(a: seq<nat>, b: seq<nat>, d: nat, t: nat)
    ensures NoneBetween(a + b, d, t) <==> NoneBetween(a, d, t) && NoneBetween(b, d, t)
  {
    assert forall e :: e in a + b <==> e in a || e in b;
  }

  lemma {:induction false} SameJobsDemand(jobs: seq<Job>, level: nat, tstart: nat, d: nat, t: nat, scale: real)
    requires JobsOk(jobs, level) && scale > 0.0 && tstart <= d <= t
    requires NoneBetween(JobDeadlines(jobs, level, tstart), d, t)
    ensures JobsDemand(jobs, level, d, scale) == JobsDemand(jobs, level, t, scale)
  {
    if jobs != [] {
      var front, last := jobs[..|jobs| - 1], jobs[|jobs| - 1];
      var e := JobDeadline(last, level);
      NoneBetweenConcat(JobDeadlines(front, level, tstart), if e > tstart then [e] else [], d, t);
      SameJobsDemand(front, level, tstart, d, t, scale);
      if e > tstart {
        assert e in [e];
      }
    }
  }

  lemma {:induction false} SameReleases(arrival: nat, period: nat, tuned: nat, limit: nat, d: nat, t: nat)
    requires period > 0 && d <= t <= limit
    requires NoneBetween(ArrivalDeadlines(arrival, period, tuned, limit), d, t)
    ensures Releases(arrival, period, tuned, d) == Releases(arrival, period, tuned, t)
    decreases limit - arrival
  {
    if arrival + tuned <= t {
      NoneBetweenConcat([arrival + tuned], ArrivalDeadlines(arrival + period, period, tuned, limit), d, t);
      assert arrival + tuned in [arrival + tuned];
      SameReleases(arrival + period, period, tuned, limit, d, t);
    }
  }

  lemma {:induction false} SameTasksDemand(tasks: seq<Task>, level: nat, tstart: nat, horizon: nat, d: nat, t: nat,
                                           scale: real)
    requires TasksOk(tasks, level) && scale > 0.0 && tstart <= d <= t <= tstart + horizon
    requires NoneBetween(TaskDeadlines(tasks, level, tstart, horizon), d, t)
    ensures TasksDemand(tasks, level, tstart, d, scale) == TasksDemand(tasks, level, tstart, t, scale)
  {
    if tasks != [] {
      var front, last := tasks[..|tasks| - 1], tasks[|tasks| - 1];
      var own := OwnDeadlines(last, level, tstart, horizon);
      NoneBetweenConcat(TaskDeadlines(front, level, tstart, horizon), own, d, t);
      SameTasksDemand(front, level, tstart, horizon, d, t, scale);
      if last.crit >= level {
        SameReleases(FirstArrival(tstart, last.period), last.period, last.tuned[level], tstart + horizon, d, t);
      }
    }
  }

  /** Between two checkpoints the demand does not change. */
  lemma DemandIsStep(v: View, extra: Option<Job>, level: nat, tstart: nat, horizon: nat, d: nat, t: nat, scale: real)
    requires JobsOk(Jobs(v, extra), level) && TasksOk(v.tasks, level) && scale > 0.0
    requires tstart <= d <= t <= tstart + horizon
    requires NoneBetween(Checkpoints(v, extra, level, tstart, horizon), d, t)
    ensures Demand(v, extra, level, tstart, d, scale) == Demand(v, extra, level, tstart, t, scale)
  {
    hide Jobs, NoneBetween;
    NoneBetweenConcat(JobDeadlines(Jobs(v, extra), level, tstart), TaskDeadlines(v.tasks, level, tstart, horizon),
                      d, t);
    SameJobsDemand(Jobs(v, extra), level, tstart, d, t, scale);
    SameTasksDemand(v.tasks, level, tstart, horizon, d, t, scale);
  }

  lemma {:induction false} LastUpTo(q: seq<nat>, t: nat) returns (d: nat)
    requires exists e :: e in q && e <= t
    ensures d in q && d <= t && NoneBetween(q, d, t)
  {
    var rest, x := q[1..], q[0];
    assert forall e :: e in q <==> e == x || e in rest;
    if exists e :: e in rest && e <= t {
      d := LastUpTo(rest, t);
      if d < x <= t {
        d := x;
      }
    } else {
      d := x;
    }
  }

  lemma {:induction false} JobCheckpointsLater(jobs: seq<Job>, level: nat, tstart: nat)
    requires JobsOk(jobs, level)
    ensures forall d :: d in JobDeadlines(jobs, level, tstart) ==> tstart < d
  {
    if jobs != [] {
      JobCheckpointsLater(jobs[..|jobs| - 1], level, tstart);
    }
  }

  lemma {:induction false} ArrivalDeadlinesLater(arrival: nat, period: nat, tuned: nat, limit: nat)
    requires period > 0
    ensures forall d :: d in ArrivalDeadlines(arrival, period, tuned, limit) ==> arrival <= d
    decreases limit - arrival
  {
    if arrival + tuned <= limit {
      ArrivalDeadlinesLater(arrival + period, period, tuned, limit);
    }
  }

  lemma FirstArrivalLater(tstart: nat, period: nat)
    requires period > 0
    ensures tstart < FirstArrival(tstart, period)
  {
    var q, r := tstart / period, tstart % period;
    assert tstart == period * q + r;
    assert (q + 1) * period == period * q + period;
  }

  lemma {:induction false} TaskCheckpointsLater(tasks: seq<Task>, level: nat, tstart: nat, horizon: nat)
    requires TasksOk(tasks, level)
    ensures forall d :: d in TaskDeadlines(tasks, level, tstart, horizon) ==> tstart < d
  {
    if tasks != [] {
      var last := tasks[|tasks| - 1];
      TaskCheckpointsLater(tasks[..|tasks| - 1], level, tstart, horizon);
      if last.crit >= level {
        FirstArrivalLater(tstart, last.period);
        ArrivalDeadlinesLater(FirstArrival(tstart, last.period), last.period, last.tuned[level], tstart + horizon);
      }
    }
  }

  lemma CheckpointsLater(v: View, extra: Option<Job>, level: nat, tstart: nat, horizon: nat)
    requires JobsOk(Jobs(v, extra), level) && TasksOk(v.tasks, level)
    ensures forall d :: d in Checkpoints(v, extra, level, tstart, horizon) ==> tstart < d
  {
    JobCheckpointsLater(Jobs(v, extra), level, tstart);
    TaskCheckpointsLater(v.tasks, level, tstart, horizon);
  }

  /** A margin that holds at the checkpoints holds at every instant from the first checkpoint to the
      end of the horizon. */
  lemma CheckpointsSuffice(v: View, extra: Option<Job>, level: nat, tstart: nat, horizon: nat, scale: real,
                           margin: real, t: nat)
    requires JobsOk(Jobs(v, extra), level) && TasksOk(v.tasks, level) && scale > 0.0
    requires forall d :: d in Checkpoints(v, extra, level, tstart, horizon) ==>
               margin <= Left(v, extra, level, tstart, d, scale)
    requires exists d :: d in Checkpoints(v, extra, level, tstart, horizon) && d <= t
    requires t <= tstart + horizon
    ensures Demand(v, extra, level, tstart, t, scale) + margin <= (t - tstart) as real
  {
    hide Demand, Checkpoints, Jobs;
    CheckpointsLater(v, extra, level, tstart, horizon);
    var d := LastUpTo(Checkpoints(v, extra, level, tstart, horizon), t);
    DemandIsStep(v, extra, level, tstart, horizon, d, t, scale);
    assert margin <= Left(v, extra, level, tstart, d, scale);
  }

  // ---- speed --------------------------------------------------------------------------------

  lemma Signs(z: real, f: real)
    requires f > 0.0
    ensures z * f >= 0.0 <==> z >= 0.0
  {
  }

  lemma SlowerTakesLonger(x: real, slow: real, fast: real)
    requires 0.0 < slow <= fast && x >= 0.0
    ensures x / fast <= x / slow
  {
    var u, w := x / fast, x / slow;
    assert u * fast == x && w * slow == x;
    Signs(w, slow);
    assert w * fast == w * slow + w * (fast - slow);
    assert w * (fast - slow) >= 0.0;
    assert (w - u) * fast == w * fast - u * fast;
    Signs(w - u, fast);
  }

  lemma WorkAntitone(x: real, slow: real, fast: real)
    requires 0.0 < slow <= fast
    ensures Max(0, Ceil(x / fast)) <= Max(0, Ceil(x / slow))
  {
    if x >= 0.0 {
      SlowerTakesLonger(x, slow, fast);
      CeilMonotone(x / fast, x / slow);
    } else {
      assert (x / fast) * fast == x;
      assert x / fast <= 0.0;
      CeilMonotone(x / fast, 0.0);
    }
  }

  lemma {:induction false} JobsDemandAntitone(jobs: seq<Job>, level: nat, d: nat, slow: real, fast: real)
    requires JobsOk(jobs, level) && 0.0 < slow <= fast
    ensures JobsDemand(jobs, level, d, fast) <= JobsDemand(jobs, level, d, slow)
  {
    if jobs != [] {
      var last := jobs[|jobs| - 1];
      JobsDemandAntitone(jobs[..|jobs| - 1], level, d, slow, fast);
      WorkAntitone(last.budget[level] as real - last.executed, slow, fast);
    }
  }

  lemma ScaleCount(n: nat, a: real, b: real)
    requires a <= b
    ensures n as real * a <= n as real * b
  {
  }

  lemma TaskDemandAntitone(t: Task, level: nat, tstart: nat, d: nat, slow: real, fast: real)
    requires t.period > 0 && level < |t.budget| && level < |t.tuned| && 0.0 < slow <= fast
    ensures TaskDemand(t, level, tstart, d, fast) <= TaskDemand(t, level, tstart, d, slow)
  {
    hide Releases, FirstArrival, Ceil;
    var x := t.budget[level] as real;
    SlowerTakesLonger(x, slow, fast);
    CeilMonotone(x / fast, x / slow);
    ScaleCount(Releases(FirstArrival(tstart, t.period), t.period, t.tuned[level], d),
               Ceil(x / fast) as real, Ceil(x / slow) as real);
  }

  lemma {:induction false} TasksDemandAntitone(tasks: seq<Task>, level: nat, tstart: nat, d: nat, slow: real,
                                               fast: real)
    requires TasksOk(tasks, level) && 0.0 < slow <= fast
    ensures TasksDemand(tasks, level, tstart, d, fast) <= TasksDemand(tasks, level, tstart, d, slow)
  {
    hide TaskDemand;
    if tasks != [] {
      TasksDemandAntitone(tasks[..|tasks| - 1], level, tstart, d, slow, fast);
      TaskDemandAntitone(tasks[|tasks| - 1], level, tstart, d, slow, fast);
    }
  }

  /** The time left at an instant never grows as the core gets slower. */
  lemma LeftAntitone(v: View, extra: Option<Job>, level: nat, tstart: nat, d: nat, slow: real, fast: real)
    requires JobsOk(Jobs(v, extra), level) && TasksOk(v.tasks, level) && 0.0 < slow <= fast
    ensures Left(v, extra, level, tstart, d, slow) <= Left(v, extra, level, tstart, d, fast)
  {
    hide Jobs, JobsDemand, TasksDemand;
    JobsDemandAntitone(Jobs(v, extra), level, d, slow, fast);
    TasksDemandAntitone(v.tasks, level, tstart, d, slow, fast);
  }

  // ---- the analysis as it runs --------------------------------------------------------------

  /** The entries that fit into an array of `n` places. */
  function Cut(q: seq<nat>, n: nat): seq<nat> {
    if |q| <= n then q else q[..n]
  }

  lemma CutMore(q: seq<nat>, r: seq<nat>, n: nat)
    ensures |Cut(q, n)| < n ==> Cut(q, n) == q && |q| < n
    ensures |Cut(q, n)| >= n ==> Cut(q + r, n) == Cut(q, n)
  {
    if |q| >= n {
      assert (q + r)[..n] == q[..n];
    }
  }

  /** Appends a deadline that lies after the start, if there is room. */
  method AddDeadline(d: nat, tstart: nat, a: array<nat>, count: nat, ghost sofar: seq<nat>) returns (newCount: nat)
    requires count <= a.Length && a[..count] == Cut(sofar, a.Length)
    modifies a
    ensures newCount <= a.Length && a[..newCount] == Cut(sofar + (if d > tstart then [d] else []), a.Length)
  {
    newCount := count;
    CutMore(sofar, [d], a.Length);
    assert sofar + [] == sofar;
    if d > tstart && count < a.Length {
      a[count] := d;
      newCount := count + 1;
      assert a[..newCount] == sofar + [d];
    }
  }

  method AddQueue(queue: seq<Job>, level: nat, tstart: nat, a: array<nat>, count: nat, ghost sofar: seq<nat>)
    returns (newCount: nat)
    requires JobsOk(queue, level)
    requires count <= a.Length && a[..count] == Cut(sofar, a.Length)
    modifies a
    ensures newCount <= a.Length && a[..newCount] == Cut(sofar + JobDeadlines(queue, level, tstart), a.Length)
  {
    hide Cut;
    newCount := count;
    assert sofar + [] == sofar;
    for i := 0 to |queue|
      invariant newCount <= a.Length && a[..newCount] == Cut(sofar + JobDeadlines(queue[..i], level, tstart), a.Length)
    {
      var d := JobDeadline(queue[i], level);
      NextJob(queue, i, level, tstart);
      ghost var before := sofar + JobDeadlines(queue[..i], level, tstart);
      assert sofar + JobDeadlines(queue[..i + 1], level, tstart) == before + (if d > tstart then [d] else []);
      newCount := AddDeadline(d, tstart, a, newCount, before);
    }
    assert queue[..|queue|] == queue;
  }

  lemma NextJob(queue: seq<Job>, i: nat, level: nat, tstart: nat)
    requires i < |queue| && JobsOk(queue, level)
    ensures var d := JobDeadline(queue[i], level);
            JobDeadlines(queue[..i + 1], level, tstart) ==
                JobDeadlines(queue[..i], level, tstart) + (if d > tstart then [d] else [])
  {
    assert queue[..i + 1][..i] == queue[..i];
  }

  method AddArrivals(t: Task, level: nat, tstart: nat, horizon: nat, a: array<nat>, count: nat, ghost sofar: seq<nat>)
    returns (newCount: nat)
    requires t.period > 0 && level < |t.tuned| && level <= t.crit
    requires count <= a.Length && a[..count] == Cut(sofar, a.Length)
    modifies a
    ensures newCount <= a.Length && a[..newCount] == Cut(sofar + OwnDeadlines(t, level, tstart, horizon), a.Length)
  {
    hide FirstArrival, Cut;
    var period, deadline := t.period, t.tuned[level];
    FirstArrivalLater(tstart, period);
    var arrival := FirstArrival(tstart, period);
    ghost var all := sofar + OwnDeadlines(t, level, tstart, horizon);
    ghost var before: seq<nat> := sofar;
    newCount := count;
    while arrival + deadline > tstart && arrival + deadline <= tstart + horizon && newCount < a.Length
      invariant newCount <= a.Length && a[..newCount] == Cut(before, a.Length)
      invariant all == before + ArrivalDeadlines(arrival, period, deadline, tstart + horizon)
      invariant tstart < arrival
      decreases tstart + horizon - arrival
    {
      var d := arrival + deadline;
      newCount := AddDeadline(d, tstart, a, newCount, before);
      Regroup(before, d, ArrivalDeadlines(arrival + period, period, deadline, tstart + horizon));
      before := before + [d];
      arrival := arrival + period;
    }
    CutMore(before, ArrivalDeadlines(arrival, period, deadline, tstart + horizon), a.Length);
    assert before + [] == before;
  }

  lemma Regroup<T>(a: seq<T>, x: T, b: seq<T>)
    ensures a + ([x] + b) == (a + [x]) + b
  {
  }

  /** The deadlines of the jobs present and of the arrivals to come, as far as the array holds them. */
  method CollectDeadlines(v: View, extra: Option<Job>, level: nat, tstart: nat, horizon: nat, a: array<nat>)
    returns (count: nat)
    requires JobsOk(Jobs(v, extra), level) && TasksOk(v.tasks, level)
    modifies a
    ensures count <= a.Length && a[..count] == Cut(Checkpoints(v, extra, level, tstart, horizon), a.Length)
  {
    hide Cut, Jobs, JobDeadlines;
    JobParts(v, extra, level, tstart);
    ghost var none: seq<nat> := [];
    ghost var all := JobDeadlines(Jobs(v, extra), level, tstart);
    count := 0;
    CutNone(a.Length);
    ghost var q1 := none + JobDeadlines(One(extra), level, tstart);
    count := AddQueue(One(extra), level, tstart, a, count, none);
    ghost var q2 := q1 + JobDeadlines(One(v.running), level, tstart);
    count := AddQueue(One(v.running), level, tstart, a, count, q1);
    ghost var q3 := q2 + JobDeadlines(v.ready, level, tstart);
    count := AddQueue(v.ready, level, tstart, a, count, q2);
    ghost var q4 := q3 + JobDeadlines(v.replicas, level, tstart);
    count := AddQueue(v.replicas, level, tstart, a, count, q3);
    count := AddQueue(v.pending, level, tstart, a, count, q4);
    count := AddTasks(v.tasks, level, tstart, horizon, a, count, all);
  }

  lemma CutNone(n: nat)
    ensures Cut([], n) == []
  {
  }

  lemma {:induction false} JobDeadlinesConcat(p: seq<Job>, q: seq<Job>, level: nat, tstart: nat)
    requires JobsOk(p + q, level)
    ensures JobsOk(p, level) && JobsOk(q, level)
    ensures JobDeadlines(p + q, level, tstart) == JobDeadlines(p, level, tstart) + JobDeadlines(q, level, tstart)
    decreases |q|
  {
    forall i | 0 <= i < |p| ensures level < |p[i].relative| && level < |p[i].budget| {
      assert p[i] == (p + q)[i];
    }
    forall i | 0 <= i < |q| ensures level < |q[i].relative| && level < |q[i].budget| {
      assert q[i] == (p + q)[|p| + i];
    }
    if q == [] {
      assert p + q == p;
    } else {
      assert (p + q)[..|p + q| - 1] == p + q[..|q| - 1];
      JobDeadlinesConcat(p, q[..|q| - 1], level, tstart);
    }
  }

  lemma JobParts(v: View, extra: Option<Job>, level: nat, tstart: nat)
    requires JobsOk(Jobs(v, extra), level)
    ensures JobsOk(One(extra), level) && JobsOk(One(v.running), level)
    ensures JobsOk(v.ready, level) && JobsOk(v.replicas, level) && JobsOk(v.pending, level)
    ensures JobDeadlines(Jobs(v, extra), level, tstart)
         == [] + JobDeadlines(One(extra), level, tstart) + JobDeadlines(One(v.running), level, tstart)
            + JobDeadlines(v.ready, level, tstart) + JobDeadlines(v.replicas, level, tstart)
            + JobDeadlines(v.pending, level, tstart)
  {
    hide One, JobsOk;
    var e, r := One(extra), One(v.running);
    JobDeadlinesConcat(e + r + v.ready + v.replicas, v.pending, level, tstart);
    JobDeadlinesConcat(e + r + v.ready, v.replicas, level, tstart);
    JobDeadlinesConcat(e + r, v.ready, level, tstart);
    JobDeadlinesConcat(e, r, level, tstart);
    assert [] + JobDeadlines(e, level, tstart) == JobDeadlines(e, level, tstart);
  }

  method AddTasks(tasks: seq<Task>, level: nat, tstart: nat, horizon: nat, a: array<nat>, count: nat,
                  ghost sofar: seq<nat>)
    returns (newCount: nat)
    requires TasksOk(tasks, level)
    requires count <= a.Length && a[..count] == Cut(sofar, a.Length)
    modifies a
    ensures newCount <= a.Length && a[..newCount] == Cut(sofar + TaskDeadlines(tasks, level, tstart, horizon), a.Length)
  {
    hide Cut, ArrivalDeadlines, FirstArrival;
    newCount := count;
    assert sofar + [] == sofar;
    for i := 0 to |tasks|
      invariant newCount <= a.Length
      invariant a[..newCount] == Cut(sofar + TaskDeadlines(tasks[..i], level, tstart, horizon), a.Length)
    {
      ghost var before := sofar + TaskDeadlines(tasks[..i], level, tstart, horizon);
      ghost var own := OwnDeadlines(tasks[i], level, tstart, horizon);
      NextTask(tasks, i, level, tstart, horizon);
      assert sofar + TaskDeadlines(tasks[..i + 1], level, tstart, horizon) == before + own;
      if tasks[i].crit < level {
        assert before + own == before;
      } else {
        newCount := AddArrivals(tasks[i], level, tstart, horizon, a, newCount, before);
      }
    }
    assert tasks[..|tasks|] == tasks;
  }

  lemma NextTask(tasks: seq<Task>, i: nat, level: nat, tstart: nat, horizon: nat)
    requires i < |tasks| && TasksOk(tasks, level)
    ensures TaskDeadlines(tasks[..i + 1], level, tstart, horizon)
         == TaskDeadlines(tasks[..i], level, tstart, horizon) + OwnDeadlines(tasks[i], level, tstart, horizon)
  {
    assert tasks[..i + 1][..i] == tasks[..i];
  }

  // ---- sorting and removing duplicates ------------------------------------------------------

  predicate Ascending(q: seq<nat>) {
    forall i, j :: 0 <= i < j < |q| ==> q[i] <= q[j]
  }

  predicate Strict(q: seq<nat>) {
    forall i, j :: 0 <= i < j < |q| ==> q[i] < q[j]
  }

  ghost predicate SameSet(p: seq<nat>, q: seq<nat>) {
    forall x :: x in p <==> x in q
  }

  function Inserted(q: seq<nat>, x: nat): seq<nat> {
    if q == [] then [x] else if x < q[0] then [x] + q else [q[0]] + Inserted(q[1..], x)
  }

  lemma {:induction false} InsertedOk(q: seq<nat>, x: nat)
    requires Ascending(q)
    ensures Ascending(Inserted(q, x)) && |Inserted(q, x)| == |q| + 1
    ensures Inserted(q, x)[0] == if q == [] || x < q[0] then x else q[0]
  {
    hide Ascending;
    if q == [] {
      AscendingCons(x, q);
      assert [x] + q == [x];
    } else if x < q[0] {
      AscendingCons(x, q);
    } else {
      AscendingTail(q);
      InsertedOk(q[1..], x);
      AscendingCons(q[0], Inserted(q[1..], x));
    }
  }

  lemma AscendingTail(q: seq<nat>)
    requires Ascending(q) && q != []
    ensures Ascending(q[1..]) && (|q| > 1 ==> q[0] <= q[1..][0])
  {
  }

  lemma AscendingCons(x: nat, q: seq<nat>)
    requires Ascending(q) && (q != [] ==> x <= q[0])
    ensures Ascending([x] + q)
  {
    forall j | 0 <= j < |q| ensures x <= q[j] {
      assert j > 0 ==> q[0] <= q[j];
    }
  }

  lemma {:induction false} InsertedBag(q: seq<nat>, x: nat)
    ensures multiset(Inserted(q, x)) == multiset(q) + multiset{x}
  {
    if q != [] && q[0] <= x {
      InsertedBag(q[1..], x);
      assert q == [q[0]] + q[1..];
    }
  }

  lemma SameBagSameSet(p: seq<nat>, q: seq<nat>)
    requires multiset(p) == multiset(q)
    ensures SameSet(p, q)
  {
    assert forall x :: x in p <==> x in multiset(p);
  }

  /** Sorts the first `count` entries, as the library sort does. */
  method SortPrefix(a: array<nat>, count: nat)
    requires count <= a.Length
    modifies a
    ensures Ascending(a[..count]) && multiset(a[..count]) == multiset(old(a[..count]))
    ensures a[count..] == old(a[count..])
  {
    hide Inserted;
    var sorted: seq<nat> := [];
    for i := 0 to count
      invariant Ascending(sorted) && |sorted| == i && multiset(sorted) == multiset(a[..i]) && a[..] == old(a[..])
    {
      InsertedOk(sorted, a[i]);
      InsertedBag(sorted, a[i]);
      sorted := Inserted(sorted, a[i]);
      assert a[..i + 1] == a[..i] + [a[i]];
    }
    for i := 0 to count
      invariant forall k :: 0 <= k < i ==> a[k] == sorted[k]
      invariant a[count..] == old(a[count..])
    {
      a[i] := sorted[i];
    }
    assert a[..count] == sorted;
    assert old(a[..])[..count] == old(a[..count]);
  }

  /** Without repetitions of the preceding entry. */
  function Distinct(q: seq<nat>): (r: seq<nat>)
    requires q != []
    ensures 0 < |r| <= |q| && r[|r| - 1] == q[|q| - 1]
  {
    if |q| == 1 then q
    else
      var front := Distinct(q[..|q| - 1]);
      if q[|q| - 1] == front[|front| - 1] then front else front + [q[|q| - 1]]
  }

  lemma NextDistinct(q: seq<nat>, i: nat)
    requires 0 < i < |q|
    ensures var front := Distinct(q[..i]);
            Distinct(q[..i + 1]) == if q[i] == front[|front| - 1] then front else front + [q[i]]
  {
    assert q[..i + 1][..i] == q[..i];
  }

  lemma StrictSnoc(q: seq<nat>, x: nat)
    requires Strict(q) && (q != [] ==> q[|q| - 1] < x)
    ensures Strict(q + [x])
  {
    forall i | 0 <= i < |q| ensures q[i] < x {
      assert i < |q| - 1 ==> q[i] < q[|q| - 1];
    }
  }

  lemma SameSetSnoc(p: seq<nat>, q: seq<nat>, x: nat)
    requires SameSet(p, q)
    ensures SameSet(p + [x], q + [x]) && (x in p ==> SameSet(p, q + [x]))
  {
  }

  lemma {:induction false} DistinctOk(q: seq<nat>)
    requires q != [] && Ascending(q)
    ensures Strict(Distinct(q)) && SameSet(Distinct(q), q)
  {
    hide Strict, SameSet, Ascending;
    if |q| == 1 {
      OneEntry(q);
    } else {
      var n := |q| - 1;
      var front := Distinct(q[..n]);
      AscendingFront(q);
      DistinctOk(q[..n]);
      assert q == q[..n] + [q[n]];
      SameSetSnoc(front, q[..n], q[n]);
      if q[n] != front[|front| - 1] {
        StrictSnoc(front, q[n]);
      }
    }
  }

  lemma OneEntry(q: seq<nat>)
    ensures SameSet(q, q) && (|q| == 1 ==> Strict(q))
  {
  }

  lemma AscendingFront(q: seq<nat>)
    requires |q| > 1 && Ascending(q)
    ensures Ascending(q[..|q| - 1]) && q[|q| - 2] <= q[|q| - 1]
  {
  }

  /** Keeps entry `i` of the prefix unless it repeats the last one kept. */
  method KeepNew(a: array<nat>, unique: nat, i: nat, ghost was: seq<nat>) returns (last: nat)
    requires unique < i < |was| <= a.Length && a[i..|was|] == was[i..] && a[..unique + 1] == Distinct(was[..i])
    modifies a
    ensures last <= i && a[i + 1..|was|] == was[i + 1..] && a[..last + 1] == Distinct(was[..i + 1])
  {
    hide *;
    NextDistinct(was, i);
    SplitAt(a[i..|was|], was, i);
    assert a[unique] == a[..unique + 1][unique];
    last := unique;
    if a[i] != a[unique] {
      last := unique + 1;
      Place(a, last, i, |was|);
    } else {
      assert a[i + 1..|was|] == a[i..|was|][1..];
    }
  }

  /** Moves the distinct entries of a sorted prefix to the front. */
  method RemoveDuplicates(a: array<nat>, count: nat) returns (kept: nat)
    requires 0 < count <= a.Length && Ascending(a[..count])
    modifies a
    ensures 0 < kept <= count && Strict(a[..kept]) && SameSet(a[..kept], old(a[..count]))
  {
    hide *;
    ghost var was := a[..count];
    DistinctOk(was);
    var unique := 0;
    OneDistinct(was);
    for i := 1 to count
      invariant 0 <= unique < i && a[i..count] == was[i..] && a[..unique + 1] == Distinct(was[..i])
    {
      unique := KeepNew(a, unique, i, was);
    }
    assert was[..count] == was;
    return unique + 1;
  }

  lemma OneDistinct(q: seq<nat>)
    requires q != []
    ensures Distinct(q[..1]) == [q[0]]
  {
  }

  lemma SplitAt(rest: seq<nat>, was: seq<nat>, i: nat)
    requires i < |was| && rest == was[i..]
    ensures rest[0] == was[i] && rest[1..] == was[i + 1..]
  {
  }

  method Place(a: array<nat>, unique: nat, i: nat, ghost count: nat)
    requires 0 < unique <= i < count <= a.Length
    modifies a
    ensures a[..unique + 1] == old(a[..unique]) + [old(a[i])] && a[i + 1..count] == old(a[i..count])[1..]
  {
    a[unique] := a[i];
  }

  // ---- the slack ----------------------------------------------------------------------------

  lemma {:induction false} JobsDemandConcat(p: seq<Job>, q: seq<Job>, level: nat, d: nat, scale: real)
    requires JobsOk(p + q, level) && JobsOk(p, level) && JobsOk(q, level) && scale > 0.0
    ensures JobsDemand(p + q, level, d, scale) == JobsDemand(p, level, d, scale) + JobsDemand(q, level, d, scale)
    decreases |q|
  {
    hide JobDemand;
    if q == [] {
      assert p + q == p;
    } else {
      assert (p + q)[..|p + q| - 1] == p + q[..|q| - 1];
      JobsDemandConcat(p, q[..|q| - 1], level, d, scale);
    }
  }

  lemma DemandParts(v: View, extra: Option<Job>, level: nat, d: nat, scale: real)
    requires JobsOk(Jobs(v, extra), level) && scale > 0.0
    ensures JobsOk(One(extra), level) && JobsOk(One(v.running), level)
    ensures JobsOk(v.ready, level) && JobsOk(v.replicas, level) && JobsOk(v.pending, level)
    ensures JobsDemand(Jobs(v, extra), level, d, scale)
         == JobsDemand(One(v.running), level, d, scale) + JobsDemand(v.ready, level, d, scale)
            + JobsDemand(v.replicas, level, d, scale) + JobsDemand(v.pending, level, d, scale)
            + JobsDemand(One(extra), level, d, scale)
  {
    hide One, JobsOk, JobsDemand;
    var e, r := One(extra), One(v.running);
    JobDeadlinesConcat(e + r + v.ready + v.replicas, v.pending, level, 0);
    JobDeadlinesConcat(e + r + v.ready, v.replicas, level, 0);
    JobDeadlinesConcat(e + r, v.ready, level, 0);
    JobDeadlinesConcat(e, r, level, 0);
    JobsDemandConcat(e + r + v.ready + v.replicas, v.pending, level, d, scale);
    JobsDemandConcat(e + r + v.ready, v.replicas, level, d, scale);
    JobsDemandConcat(e + r, v.ready, level, d, scale);
    JobsDemandConcat(e, r, level, d, scale);
  }

  method QueueDemand(queue: seq<Job>, level: nat, d: nat, scale: real) returns (demand: real)
    requires JobsOk(queue, level) && scale > 0.0
    ensures demand == JobsDemand(queue, level, d, scale)
  {
    hide JobDemand;
    demand := 0.0;
    for i := 0 to |queue|
      invariant demand == JobsDemand(queue[..i], level, d, scale)
    {
      assert queue[..i + 1][..i] == queue[..i];
      demand := demand + JobDemand(queue[i], level, d, scale);
    }
    assert queue[..|queue|] == queue;
  }

  method OwnDemand(t: Task, level: nat, tstart: nat, d: nat, scale: real) returns (demand: real)
    requires t.period > 0 && level < |t.budget| && level < |t.tuned| && scale > 0.0
    ensures demand == TaskDemand(t, level, tstart, d, scale)
  {
    hide Ceil, FirstArrival;
    demand := 0.0;
    if t.crit < level {
      return;
    }
    var each := Ceil(t.budget[level] as real / scale) as real;
    var arrival := FirstArrival(tstart, t.period);
    ghost var total := Releases(arrival, t.period, t.tuned[level], d);
    ghost var n: nat := 0;
    while arrival + t.tuned[level] <= d
      invariant demand == n as real * each
      invariant n + Releases(arrival, t.period, t.tuned[level], d) == total
      decreases d - arrival
    {
      OneMore(n, each);
      demand := demand + each;
      arrival := arrival + t.period;
      n := n + 1;
    }
  }

  lemma OneMore(n: nat, x: real)
    ensures (n + 1) as real * x == n as real * x + x
  {
  }

  /** All work due by `d`, added up list by list. */
  method DemandAt(v: View, extra: Option<Job>, level: nat, tstart: nat, d: nat, scale: real) returns (demand: real)
    requires JobsOk(Jobs(v, extra), level) && TasksOk(v.tasks, level) && scale > 0.0
    ensures demand == Demand(v, extra, level, tstart, d, scale)
  {
    hide Jobs, JobsDemand, TaskDemand;
    DemandParts(v, extra, level, d, scale);
    var part := QueueDemand(One(v.running), level, d, scale);
    demand := part;
    part := QueueDemand(v.ready, level, d, scale);
    demand := demand + part;
    part := QueueDemand(v.replicas, level, d, scale);
    demand := demand + part;
    part := QueueDemand(v.pending, level, d, scale);
    demand := demand + part;
    part := QueueDemand(One(extra), level, d, scale);
    demand := demand + part;
    ghost var jobs := demand;
    for i := 0 to |v.tasks|
      invariant demand == jobs + TasksDemand(v.tasks[..i], level, tstart, d, scale)
    {
      assert v.tasks[..i + 1][..i] == v.tasks[..i];
      part := OwnDemand(v.tasks[i], level, tstart, d, scale);
      demand := demand + part;
    }
    assert v.tasks[..|v.tasks|] == v.tasks;
  }

  function NotNegative(x: real): real {
    if x < 0.0 then 0.0 else x
  }

  /** `r` is the least time left over the checkpoints that fit into `n` places, and not below zero;
      there is no slack to speak of without a checkpoint. */
  ghost predicate SlackIs(v: View, extra: Option<Job>, level: nat, tstart: nat, scale: real, horizon: nat, n: nat,
                          r: Option<real>)
    requires JobsOk(Jobs(v, extra), level) && TasksOk(v.tasks, level) && scale > 0.0
  {
    var q := Cut(Checkpoints(v, extra, level, tstart, horizon), n);
    if q == [] then r.None?
    else
      && r.Some?
      && (forall d :: d in q ==> r.value <= NotNegative(Left(v, extra, level, tstart, d, scale)))
      && (exists d :: d in q && r.value == NotNegative(Left(v, extra, level, tstart, d, scale)))
  }

  /** The analysis at speed `scale0` from `tstart0` on, but not before the present time. */
  method FindSlack(v: View, extra: Option<Job>, level: nat, levels: nat, tstart0: nat, now: nat, scale0: real,
                   horizon: nat, capacity: nat) returns (r: Option<real>)
    requires level < levels ==> JobsOk(Jobs(v, extra), level) && TasksOk(v.tasks, level)
    ensures level >= levels ==> r == Some(0.0)
    ensures level < levels ==>
              SlackIs(v, extra, level, if tstart0 > now then tstart0 else now, if scale0 <= 0.0 then 1.0 else scale0,
                      horizon, capacity, r)
    ensures r.Some? ==> r.value >= 0.0
    ensures level < levels ==>
              (r.None? <==> capacity == 0
                            || Checkpoints(v, extra, level, if tstart0 > now then tstart0 else now, horizon) == [])
  {
    hide Checkpoints, Jobs, Demand, JobsOk, TasksOk, Cut, Ascending, Strict;
    if level >= levels {
      return Some(0.0);
    }
    var scale := if scale0 <= 0.0 then 1.0 else scale0;
    var tstart := if tstart0 > now then tstart0 else now;
    var deadlines := new nat[capacity];
    var count := CollectDeadlines(v, extra, level, tstart, horizon, deadlines);
    ghost var q := Cut(Checkpoints(v, extra, level, tstart, horizon), capacity);
    CutEmpty(Checkpoints(v, extra, level, tstart, horizon), capacity);
    if count == 0 {
      return None;
    }
    ghost var found := deadlines[..count];
    SortPrefix(deadlines, count);
    SameBagSameSet(deadlines[..count], found);
    count := RemoveDuplicates(deadlines, count);
    CutLater(v, extra, level, tstart, horizon, capacity);
    r := MinimumLeft(v, extra, level, tstart, scale, deadlines[..count], q);
  }

  lemma CutLater(v: View, extra: Option<Job>, level: nat, tstart: nat, horizon: nat, n: nat)
    requires JobsOk(Jobs(v, extra), level) && TasksOk(v.tasks, level)
    ensures forall d :: d in Cut(Checkpoints(v, extra, level, tstart, horizon), n) ==> tstart < d
  {
    CheckpointsLater(v, extra, level, tstart, horizon);
    CutMembers(Checkpoints(v, extra, level, tstart, horizon), n);
  }

  lemma CutEmpty(q: seq<nat>, n: nat)
    ensures Cut(q, n) == [] <==> n == 0 || q == []
  {
  }

  lemma CutMembers(q: seq<nat>, n: nat)
    ensures forall d :: d in Cut(q, n) ==> d in q
    ensures |q| < n ==> Cut(q, n) == q
  {
  }

  method MinimumLeft(v: View, extra: Option<Job>, level: nat, tstart: nat, scale: real, deadlines: seq<nat>,
                     ghost q: seq<nat>)
    returns (r: Option<real>)
    requires JobsOk(Jobs(v, extra), level) && TasksOk(v.tasks, level) && scale > 0.0
    requires deadlines != [] && SameSet(deadlines, q) && forall d :: d in q ==> tstart < d
    ensures r.Some?
    ensures forall d :: d in q ==> r.value <= NotNegative(Left(v, extra, level, tstart, d, scale))
    ensures exists d :: d in q && r.value == NotNegative(Left(v, extra, level, tstart, d, scale))
  {
    hide Jobs, Demand, JobsOk, TasksOk;
    var minSlack: Option<real> := None;
    ghost var at := 0;
    for i := 0 to |deadlines|
      invariant i == 0 ==> minSlack.None?
      invariant i > 0 ==>
                  minSlack.Some? && at < i && minSlack.value == Left(v, extra, level, tstart, deadlines[at], scale)
      invariant i > 0 ==> forall k :: 0 <= k < i ==>
                  minSlack.value <= Left(v, extra, level, tstart, deadlines[k], scale)
    {
      var d := deadlines[i];
      assert d in deadlines;
      var demand := DemandAt(v, extra, level, tstart, d, scale);
      var slack := (d - tstart) as real - demand;
      if minSlack.None? || slack < minSlack.value {
        minSlack := Some(slack);
        at := i;
      }
    }
    assert deadlines[at] in q;
    r := if minSlack.value < 0.0 then Some(0.0) else minSlack;
  }

  /** If the slack is positive and the array was not filled, then at every instant from the first
      checkpoint to the end of the horizon the work due by then leaves that much time. */
  lemma PositiveSlackCovers(v: View, extra: Option<Job>, level: nat, tstart: nat, scale: real, horizon: nat, n: nat,
                            r: Option<real>, t: nat)
    requires JobsOk(Jobs(v, extra), level) && TasksOk(v.tasks, level) && scale > 0.0
    requires SlackIs(v, extra, level, tstart, scale, horizon, n, r) && r.Some? && r.value > 0.0
    requires |Checkpoints(v, extra, level, tstart, horizon)| <= n
    requires exists d :: d in Checkpoints(v, extra, level, tstart, horizon) && d <= t
    requires t <= tstart + horizon
    ensures Demand(v, extra, level, tstart, t, scale) + r.value <= (t - tstart) as real
  {
    hide Checkpoints, Jobs, Demand;
    CheckpointsSuffice(v, extra, level, tstart, horizon, scale, r.value, t);
  }

  /** At every instant from the first checkpoint to the end of the horizon the work due by then leaves
      `margin`. */
  ghost predicate Covers(v: View, extra: Option<Job>, level: nat, tstart: nat, horizon: nat, scale: real, margin: real)
    requires JobsOk(Jobs(v, extra), level) && TasksOk(v.tasks, level) && scale > 0.0
  {
    forall t: nat :: t <= tstart + horizon && (exists d :: d in Checkpoints(v, extra, level, tstart, horizon) && d <= t)
      ==> Demand(v, extra, level, tstart, t, scale) + margin <= (t - tstart) as real
  }

  /** A margin is left at every instant exactly if it is left at every checkpoint of the horizon. */
  lemma CoversExactly(v: View, extra: Option<Job>, level: nat, tstart: nat, horizon: nat, scale: real, margin: real)
    requires JobsOk(Jobs(v, extra), level) && TasksOk(v.tasks, level) && scale > 0.0
    ensures Covers(v, extra, level, tstart, horizon, scale, margin)
       <==> forall d :: d in Checkpoints(v, extra, level, tstart, horizon) && d <= tstart + horizon ==>
              margin <= Left(v, extra, level, tstart, d, scale)
  {
    hide Demand, Checkpoints, Jobs;
    var q := Checkpoints(v, extra, level, tstart, horizon);
    if forall d :: d in q && d <= tstart + horizon ==> margin <= Left(v, extra, level, tstart, d, scale) {
      CheckpointsLater(v, extra, level, tstart, horizon);
      forall t: nat | t <= tstart + horizon && exists d :: d in q && d <= t
        ensures Demand(v, extra, level, tstart, t, scale) + margin <= (t - tstart) as real
      {
        var d := LastUpTo(q, t);
        DemandIsStep(v, extra, level, tstart, horizon, d, t, scale);
        assert margin <= Left(v, extra, level, tstart, d, scale);
      }
    }
  }

  /** The entries that do not fit into an array of `n` places. */
  function Dropped(q: seq<nat>, n: nat): seq<nat> {
    if |q| <= n then [] else q[n..]
  }

  lemma CutOrDropped(q: seq<nat>, n: nat)
    ensures forall d :: d in q <==> d in Cut(q, n) || d in Dropped(q, n)
  {
    if n < |q| {
      assert q == q[..n] + q[n..];
    }
  }

  /** Positive slack is left at every instant exactly if it is left at the checkpoints of the horizon
      that the array had no room for. */
  lemma PositiveSlackExact(v: View, extra: Option<Job>, level: nat, tstart: nat, scale: real, horizon: nat, n: nat,
                           r: Option<real>)
    requires JobsOk(Jobs(v, extra), level) && TasksOk(v.tasks, level) && scale > 0.0
    requires SlackIs(v, extra, level, tstart, scale, horizon, n, r) && r.Some? && r.value > 0.0
    ensures Covers(v, extra, level, tstart, horizon, scale, r.value)
       <==> forall d :: d in Dropped(Checkpoints(v, extra, level, tstart, horizon), n) && d <= tstart + horizon ==>
              r.value <= Left(v, extra, level, tstart, d, scale)
  {
    hide Checkpoints, Jobs, Left, Cut, Dropped, Covers;
    CutOrDropped(Checkpoints(v, extra, level, tstart, horizon), n);
    CoversExactly(v, extra, level, tstart, horizon, scale, r.value);
  }

  /** A positive margin is met at all checkpoints looked at exactly if it is no larger than the
      slack that was found. */
  lemma SlackIsExact(v: View, extra: Option<Job>, level: nat, tstart: nat, scale: real, horizon: nat, n: nat,
                     r: Option<real>, margin: real)
    requires JobsOk(Jobs(v, extra), level) && TasksOk(v.tasks, level) && scale > 0.0 && margin > 0.0
    requires SlackIs(v, extra, level, tstart, scale, horizon, n, r)
    ensures (r.None? || margin <= r.value)
       <==> forall d :: d in Cut(Checkpoints(v, extra, level, tstart, horizon), n) ==>
           margin <= Left(v, extra, level, tstart, d, scale)
  {
    hide Checkpoints, Jobs, Left, Cut;
  }

  /** The slack never grows as the core gets slower. */
  lemma SlackAntitone(v: View, extra: Option<Job>, level: nat, tstart: nat, slow: real, fast: real, horizon: nat,
                      n: nat,
                      rSlow: Option<real>, rFast: Option<real>)
    requires JobsOk(Jobs(v, extra), level) && TasksOk(v.tasks, level) && 0.0 < slow <= fast
    requires SlackIs(v, extra, level, tstart, slow, horizon, n, rSlow)
    requires SlackIs(v, extra, level, tstart, fast, horizon, n, rFast)
    ensures rSlow.None? <==> rFast.None?
    ensures rSlow.Some? ==> rSlow.value <= rFast.value
  {
    hide Checkpoints, Jobs, Left, Cut;
    if rSlow.Some? {
      var d :| d in Cut(Checkpoints(v, extra, level, tstart, horizon), n)
               && rFast.value == NotNegative(Left(v, extra, level, tstart, d, fast));
      LeftAntitone(v, extra, level, tstart, d, slow, fast);
    }
  }

  // ---- when the array is full ---------------------------------------------------------------

  /** No more than this many deadlines of arrivals lie in the horizon. */
  function ArrivalRoom(tasks: seq<Task>, horizon: nat): nat
    requires forall i :: 0 <= i < |tasks| ==> tasks[i].period > 0
  {
    if tasks == [] then 0
    else ArrivalRoom(tasks[..|tasks| - 1], horizon) + horizon / tasks[|tasks| - 1].period + 1
  }

  lemma {:induction false} FewJobs(jobs: seq<Job>, level: nat, tstart: nat)
    requires JobsOk(jobs, level)
    ensures |JobDeadlines(jobs, level, tstart)| <= |jobs|
  {
    if jobs != [] {
      FewJobs(jobs[..|jobs| - 1], level, tstart);
    }
  }

  lemma {:induction false} FewArrivals(arrival: nat, period: nat, tuned: nat, limit: nat)
    requires period > 0 && arrival <= limit
    ensures |ArrivalDeadlines(arrival, period, tuned, limit)| <= (limit - arrival) / period + 1
    decreases limit - arrival
  {
    if arrival + tuned <= limit {
      if arrival + period <= limit {
        FewArrivals(arrival + period, period, tuned, limit);
        OneFewer(limit - arrival, period);
      } else {
        assert ArrivalDeadlines(arrival + period, period, tuned, limit) == [];
        QuotientMonotone(period, 0, 0, (limit - arrival) / period, (limit - arrival) % period);
      }
    } else {
      QuotientMonotone(period, 0, 0, (limit - arrival) / period, (limit - arrival) % period);
    }
  }

  lemma OneFewer(x: nat, p: nat)
    requires p > 0 && p <= x
    ensures (x - p) / p + 1 == x / p
  {
    assert p * ((x - p) / p + 1) == p * ((x - p) / p) + p;
    DivModUnique(x, p, (x - p) / p + 1, (x - p) % p);
  }

  lemma FewOfTask(t: Task, level: nat, tstart: nat, horizon: nat)
    requires t.period > 0 && level < |t.tuned|
    ensures |OwnDeadlines(t, level, tstart, horizon)| <= horizon / t.period + 1
  {
    hide FirstArrival, ArrivalDeadlines;
    var arrival, p := FirstArrival(tstart, t.period), t.period;
    FirstArrivalLater(tstart, p);
    QuotientMonotone(p, 0, 0, horizon / p, horizon % p);
    if arrival <= tstart + horizon {
      FewArrivals(arrival, p, t.tuned[level], tstart + horizon);
      var x := tstart + horizon - arrival;
      QuotientMonotone(p, x / p, x % p, horizon / p, horizon % p);
    } else {
      NoArrivals(arrival, p, t.tuned[level], tstart + horizon);
    }
  }

  lemma NoArrivals(arrival: nat, period: nat, tuned: nat, limit: nat)
    requires period > 0 && limit < arrival
    ensures ArrivalDeadlines(arrival, period, tuned, limit) == []
  {
  }

  lemma {:induction false} FewOwn(tasks: seq<Task>, level: nat, tstart: nat, horizon: nat)
    requires TasksOk(tasks, level)
    ensures |TaskDeadlines(tasks, level, tstart, horizon)| <= ArrivalRoom(tasks, horizon)
  {
    hide OwnDeadlines;
    if tasks != [] {
      FewOwn(tasks[..|tasks| - 1], level, tstart, horizon);
      FewOfTask(tasks[|tasks| - 1], level, tstart, horizon);
    }
  }

  /** An array with a place for each job and for each arrival that the horizon has room for is never
      full, so positive slack is left at every instant. */
  lemma LargeArraySuffices(v: View, extra: Option<Job>, level: nat, tstart: nat, scale: real, horizon: nat, n: nat,
                           r: Option<real>)
    requires JobsOk(Jobs(v, extra), level) && TasksOk(v.tasks, level) && scale > 0.0
    requires SlackIs(v, extra, level, tstart, scale, horizon, n, r) && r.Some? && r.value > 0.0
    requires |Jobs(v, extra)| + ArrivalRoom(v.tasks, horizon) <= n
    ensures Covers(v, extra, level, tstart, horizon, scale, r.value)
  {
    hide Jobs, Left, Covers, SlackIs, ArrivalRoom, JobDeadlines, TaskDeadlines;
    FewJobs(Jobs(v, extra), level, tstart);
    FewOwn(v.tasks, level, tstart, horizon);
    PositiveSlackExact(v, extra, level, tstart, scale, horizon, n, r);
  }

  /** 33 tasks of period 50, and one of period 101 that comes after them. Their utilizations add up to
      less than one. */
  function Filler(): Task { Task(0, 50, [1], [50]) }

  function Fillers(k: nat): seq<Task> { seq(k, _ => Filler()) }

  function Urgent(): Task { Task(0, 101, [10], [10]) }

  function Candidate(): Job { Job(0, [105], [70], 0.0) }

  function FullView(): View { View(None, [], [], [], Fillers(33) + [Urgent()]) }

  lemma FullParts()
    ensures Jobs(FullView(), Some(Candidate())) == [Candidate()] && FullView().tasks == Fillers(33) + [Urgent()]
    ensures JobsOk([Candidate()], 0) && TasksOk(Fillers(33) + [Urgent()], 0) && TasksOk(Fillers(33), 0)
    ensures (Fillers(33) + [Urgent()])[..33] == Fillers(33)
  {
  }

  lemma FillersFront(k: nat)
    requires k > 0
    ensures Fillers(k)[..k - 1] == Fillers(k - 1) && Fillers(k)[k - 1] == Filler()
    ensures TasksOk(Fillers(k), 0) && TasksOk(Fillers(k - 1), 0)
  {
  }

  lemma {:induction false} ArrivalDeadlineAt(arrival: nat, period: nat, tuned: nat, limit: nat, k: nat)
    requires period > 0 && arrival + k * period + tuned <= limit
    ensures var q := ArrivalDeadlines(arrival, period, tuned, limit);
            k < |q| && q[k] == arrival + k * period + tuned
    decreases k
  {
    if k > 0 {
      assert k * period == (k - 1) * period + period;
      assert arrival + tuned <= limit;
      ArrivalDeadlineAt(arrival + period, period, tuned, limit, k - 1);
    }
  }

  predicate Fifties(q: seq<nat>) {
    forall i :: 0 <= i < |q| ==> q[i] % 50 == 0 && 100 <= q[i] <= 5000
  }

  lemma {:induction false} FillerDeadlines(arrival: nat)
    requires arrival % 50 == 0 && 50 <= arrival
    ensures Fifties(ArrivalDeadlines(arrival, 50, 50, 5000))
    decreases 5000 - arrival
  {
    if arrival + 50 <= 5000 {
      FillerDeadlines(arrival + 50);
    }
  }

  lemma {:induction false} FillersDeadlines(k: nat)
    ensures TasksOk(Fillers(k), 0)
    ensures Fifties(TaskDeadlines(Fillers(k), 0, 0, 5000)) && |TaskDeadlines(Fillers(k), 0, 0, 5000)| >= 99 * k
  {
    if k > 0 {
      FillersFront(k);
      FillersDeadlines(k - 1);
      assert FirstArrival(0, 50) == 50;
      FillerDeadlines(50);
      ArrivalDeadlineAt(50, 50, 50, 5000, 98);
      hide ArrivalDeadlines;
      assert OwnDeadlines(Filler(), 0, 0, 5000) == ArrivalDeadlines(50, 50, 50, 5000);
    }
  }

  lemma {:induction false} FillerReleases(arrival: nat, d: nat)
    requires arrival <= d
    ensures Releases(arrival, 50, 50, d) == (d - arrival) / 50
    decreases d - arrival
  {
    if arrival + 50 <= d {
      FillerReleases(arrival + 50, d);
    }
  }

  lemma {:induction false} UrgentReleases(arrival: nat, d: nat)
    ensures arrival + 10 <= d ==> 101 * Releases(arrival, 101, 10, d) <= d - arrival + 91
    ensures d < arrival + 10 ==> Releases(arrival, 101, 10, d) == 0
    decreases d - arrival
  {
    if arrival + 10 <= d {
      UrgentReleases(arrival + 101, d);
    }
  }

  lemma WholeCeil(x: nat)
    ensures Ceil(x as real / 1.0) == x
  {
    var y := -(x as real);
    assert y.Floor == -(x as int);
  }

  lemma {:induction false} FillersDemand(k: nat, d: nat)
    requires 50 <= d
    ensures TasksOk(Fillers(k), 0) && TasksDemand(Fillers(k), 0, 0, d, 1.0) == (k * ((d - 50) / 50)) as real
  {
    if k > 0 {
      FillersFront(k);
      FillersDemand(k - 1, d);
      hide Ceil;
      WholeCeil(1);
      assert FirstArrival(0, 50) == 50;
      FillerReleases(50, d);
      assert TaskDemand(Filler(), 0, 0, d, 1.0) == ((d - 50) / 50) as real;
      OneMoreFiller(k, (d - 50) / 50);
    }
  }

  lemma OneMoreFiller(k: nat, c: nat)
    requires k > 0
    ensures ((k - 1) * c) as real + c as real == (k * c) as real
  {
    assert k * c == (k - 1) * c + c;
  }

  lemma UrgentDemand(d: nat)
    ensures TaskDemand(Urgent(), 0, 0, d, 1.0) == (10 * Releases(101, 101, 10, d)) as real
  {
    hide Ceil;
    WholeCeil(10);
    assert FirstArrival(0, 101) == 101;
  }

  lemma CandidateDemand(d: nat)
    ensures JobsOk([Candidate()], 0)
    ensures JobsDemand([Candidate()], 0, d, 1.0) == if 105 <= d then 70.0 else 0.0
    ensures JobDeadlines([Candidate()], 0, 0) == [105]
  {
    hide Ceil;
    WholeCeil(70);
    assert [Candidate()][..0] == [];
  }

  lemma FullDemand(d: nat)
    requires 50 <= d
    ensures JobsOk(Jobs(FullView(), Some(Candidate())), 0) && TasksOk(FullView().tasks, 0)
    ensures Demand(FullView(), Some(Candidate()), 0, 0, d, 1.0) ==
            ((if 105 <= d then 70 else 0) + 33 * ((d - 50) / 50) + 10 * Releases(101, 101, 10, d)) as real
  {
    hide TaskDemand, JobsDemand, Jobs, Candidate, FullView, Fillers, Releases;
    FullParts();
    CandidateDemand(d);
    FillersDemand(33, d);
    UrgentDemand(d);
  }

  lemma FullCheckpoints()
    ensures JobsOk(Jobs(FullView(), Some(Candidate())), 0) && TasksOk(FullView().tasks, 0)
    ensures var q := Checkpoints(FullView(), Some(Candidate()), 0, 0, 5000);
            |q| > 3268 && q[0] == 105 && Fifties(q[1..3268])
  {
    hide Jobs, Candidate, FullView, Fillers, JobDeadlines, ArrivalDeadlines;
    FullParts();
    CandidateDemand(0);
    FillersDeadlines(33);
    var fill, own := TaskDeadlines(Fillers(33), 0, 0, 5000), OwnDeadlines(Urgent(), 0, 0, 5000);
    assert FirstArrival(0, 101) == 101;
    ArrivalDeadlineAt(101, 101, 10, 5000, 0);
    var q := Checkpoints(FullView(), Some(Candidate()), 0, 0, 5000);
    assert q == [105] + (fill + own);
    assert forall i :: 1 <= i < 3268 ==> q[i] == fill[i - 1];
  }

  /** At the checkpoints that are kept at least two ticks are left. */
  lemma KeptFits(d: nat)
    requires d == 105 || (d % 50 == 0 && 100 <= d <= 5000)
    ensures JobsOk(Jobs(FullView(), Some(Candidate())), 0) && TasksOk(FullView().tasks, 0)
    ensures Left(FullView(), Some(Candidate()), 0, 0, d, 1.0) >= 2.0
    ensures d == 105 ==> Left(FullView(), Some(Candidate()), 0, 0, d, 1.0) == 2.0
  {
    hide Demand, Jobs, FullView, Candidate, Releases;
    FullDemand(d);
    UrgentReleases(101, d);
  }

  lemma FiftyWithOne()
    ensures Lcm(50, 101) == 5050
  {
    assert Gcd(50, 101) == 1 by {
      assert Gcd(50, 1) == Gcd(1, 0);
      assert Gcd(101, 50) == Gcd(50, 1);
    }
    hide Gcd;
    assert (50 / 1) * 101 == 5050;
  }

  /** When the array is full the slack found can be positive although more work is due than there is
      time. So it is for every array of up to 3268 places (50 tasks have 3200), with the horizon that
      the periods of this core give: their least common multiple, cut off at the cap. */
  lemma FullArrayHidesDemand(n: nat)
    requires 0 < n <= 3268
    ensures Min(Lcm(50, 101), Horizon.HORIZON_CAP) == 5000
    ensures JobsOk(Jobs(FullView(), Some(Candidate())), 0) && TasksOk(FullView().tasks, 0)
    ensures n < |Checkpoints(FullView(), Some(Candidate()), 0, 0, 5000)|
    ensures SlackIs(FullView(), Some(Candidate()), 0, 0, 1.0, 5000, n, Some(2.0))
    ensures Demand(FullView(), Some(Candidate()), 0, 0, 111, 1.0) == 113.0
  {
    hide Checkpoints, Jobs, Demand, FullView, Candidate, Left;
    FiftyWithOne();
    FullCheckpoints();
    var v, x := FullView(), Some(Candidate());
    var all := Checkpoints(v, x, 0, 0, 5000);
    var q := Cut(all, n);
    forall d | d in q ensures 2.0 <= Left(v, x, 0, 0, d, 1.0) {
      var i :| 0 <= i < n && q[i] == d;
      if i > 0 {
        assert all[i] == all[1..3268][i - 1];
      }
      KeptFits(d);
    }
    KeptFits(105);
    assert q[0] == 105;
    FullDemand(111);
    assert Releases(101, 101, 10, 111) == 1;
  }
}
