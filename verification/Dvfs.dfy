/** Choice of the frequency level: the scan stops at the first level that leaves too little slack. */
module Dvfs {
  import opened Common
  import opened Slack

  const FACTORS: seq<real> := [1.00, 0.90, 0.75, 0.60, 0.50, 0.40]
  const MARGIN: real := 0.05

  /** What the analysis depends on: the core, its criticality level, the number of levels, the
      present time, the horizon and the size of the deadline array. */
  datatype Input = Input(v: View, local: nat, levels: nat, now: nat, horizon: nat, places: nat)

  ghost predicate InputOk(x: Input) {
    forall c :: x.local <= c < x.levels ==> JobsOk(Jobs(x.v, None), c) && TasksOk(x.v.tasks, c)
  }

  /** At criticality level `c` and speed `scale` every checkpoint leaves the margin. */
  ghost predicate LevelMeets(x: Input, c: nat, scale: real, margin: real)
    requires JobsOk(Jobs(x.v, None), c) && TasksOk(x.v.tasks, c) && scale > 0.0
  {
    forall d :: d in Cut(Checkpoints(x.v, None, c, x.now, x.horizon), x.places) ==>
      margin <= Left(x.v, None, c, x.now, d, scale)
  }

  /** At frequency level `i` every checkpoint of the present and all higher criticality levels leaves the
      margin. */
  ghost predicate Leaves(x: Input, i: nat, margin: real)
    requires InputOk(x) && i < |FACTORS|
  {
    forall c :: x.local <= c < x.levels ==> LevelMeets(x, c, FACTORS[i], margin)
  }

  /** Frequency level `i` is sufficient: it leaves a twentieth of a tick everywhere. */
  ghost predicate Meets(x: Input, i: nat)
    requires InputOk(x) && i < |FACTORS|
  {
    Leaves(x, i, 0.05)
  }

  /** A faster level is sufficient whenever a slower one is. */
  lemma FasterMeets(x: Input, i: nat, j: nat)
    requires InputOk(x) && i <= j < |FACTORS| && Meets(x, j)
    ensures Meets(x, i)
  {
    hide Left, Cut, Checkpoints, Jobs;
    forall c | x.local <= c < x.levels ensures LevelMeets(x, c, FACTORS[i], 0.05) {
      assert LevelMeets(x, c, FACTORS[j], 0.05);
      forall d | d in Cut(Checkpoints(x.v, None, c, x.now, x.horizon), x.places)
        ensures 0.05 <= Left(x.v, None, c, x.now, d, FACTORS[i])
      {
        LeftAntitone(x.v, None, c, x.now, d, FACTORS[j], FACTORS[i]);
      }
    }
  }

  /** The least slack over the present and all higher criticality levels: a positive margin is left at every
      checkpoint of each of them exactly if it is at most that. */
  method LeastSlack(x: Input, i: nat, ghost margin: real) returns (least: Option<real>)
    requires InputOk(x) && i < |FACTORS| && margin > 0.0
    ensures (least.None? || margin <= least.value) <==> Leaves(x, i, margin)
  {
    hide Left, Cut, Checkpoints, Jobs, SlackIs, LevelMeets;
    var scale := FACTORS[i];
    least := None;
    var c := x.local;
    while c < x.levels
      invariant x.local <= c
      invariant (least.None? || margin <= least.value) <==> forall k :: x.local <= k < c && k < x.levels ==>
                  LevelMeets(x, k, scale, margin)
    {
      var slack := FindSlack(x.v, None, c, x.levels, x.now, x.now, scale, x.horizon, x.places);
      MarginExact(x, c, scale, slack, margin);
      if slack.Some? && (least.None? || slack.value < least.value) {
        least := slack;
      }
      c := c + 1;
    }
  }

  lemma MarginExact(x: Input, c: nat, scale: real, slack: Option<real>, margin: real)
    requires JobsOk(Jobs(x.v, None), c) && TasksOk(x.v.tasks, c) && scale > 0.0 && margin > 0.0
    requires SlackIs(x.v, None, c, x.now, scale, x.horizon, x.places, slack)
    ensures (slack.None? || margin <= slack.value) <==> LevelMeets(x, c, scale, margin)
  {
    SlackIsExact(x.v, None, c, x.now, scale, x.horizon, x.places, slack, margin);
  }

  /** Putting everything off for no longer than the least slack leaves enough time: the work due by a
      checkpoint of any level still fits between the end of the pause and the checkpoint. */
  lemma PauseFits(x: Input, c: nat, scale: real, pause: real, d: nat)
    requires JobsOk(Jobs(x.v, None), c) && TasksOk(x.v.tasks, c) && scale > 0.0
    requires LevelMeets(x, c, scale, pause) && d in Cut(Checkpoints(x.v, None, c, x.now, x.horizon), x.places)
    ensures Demand(x.v, None, c, x.now, d, scale) <= (d - x.now) as real - pause
  {
    hide Left, Demand, Cut, Checkpoints, Jobs, JobsOk, TasksOk;
    LeftIs(x.v, None, c, x.now, d, scale);
  }

  lemma LeftIs(v: View, extra: Option<Job>, level: nat, tstart: nat, d: nat, scale: real)
    requires JobsOk(Jobs(v, extra), level) && TasksOk(v.tasks, level) && scale > 0.0
    ensures Left(v, extra, level, tstart, d, scale) == (d - tstart) as real - Demand(v, extra, level, tstart, d, scale)
  {
    hide Demand, Jobs, JobsOk, TasksOk;
  }

  lemma MeetsIs(x: Input, i: nat)
    requires InputOk(x) && i < |FACTORS|
    ensures Meets(x, i) <==> Leaves(x, i, MARGIN)
  {
    hide Leaves;
  }

  /** The level chosen for a running core is the slowest sufficient one, and the fastest if none is:
      stopping at the first insufficient level agrees with trying them all. */
  method CalcRequiredLevel(x: Input, idle: bool) returns (best: nat)
    requires InputOk(x)
    ensures best < |FACTORS|
    ensures idle || x.v.running.None? ==> best == |FACTORS| - 1
    ensures !idle && x.v.running.Some? ==>
              if exists i :: 0 <= i < |FACTORS| && Meets(x, i)
              then Meets(x, best) && forall i :: best < i < |FACTORS| ==> !Meets(x, i)
              else best == 0
  {
    hide Meets;
    if idle || x.v.running.None? {
      return |FACTORS| - 1;
    }
    best := 0;
    for i := 0 to |FACTORS|
      invariant best < |FACTORS|
      invariant i == 0 ==> best == 0
      invariant i > 0 ==> best == i - 1 && Meets(x, best)
    {
      var least := LeastSlack(x, i, MARGIN);
      MeetsIs(x, i);
      if least.None? || MARGIN <= least.value {
        best := i;
      } else {
        forall j | i <= j < |FACTORS| ensures !Meets(x, j) {
          if Meets(x, j) {
            FasterMeets(x, i, j);
          }
        }
        return;
      }
    }
  }

  // ---- admission of a migrating job ---------------------------------------------------------

  /** With the candidate added, every checkpoint from its arrival on leaves the margin. */
  ghost predicate Admits(x: Input, candidate: Job, c: nat, margin: real)
    requires JobsOk(Jobs(x.v, Some(candidate)), c) && TasksOk(x.v.tasks, c)
  {
    var tstart := if candidate.arrival > x.now then candidate.arrival else x.now;
    forall d :: d in Cut(Checkpoints(x.v, Some(candidate), c, tstart, x.horizon), x.places) ==>
      margin <= Left(x.v, Some(candidate), c, tstart, d, 1.0)
  }

  /** The candidate's deadline at level `c` lies ahead and the analysis with it leaves the margin. */
  ghost predicate Welcome(x: Input, candidate: Job, c: nat, extraMargin: real)
    requires JobsOk(Jobs(x.v, Some(candidate)), c) && TasksOk(x.v.tasks, c)
  {
    CandidateOk(x, candidate, c);
    x.now < JobDeadline(candidate, c) && Admits(x, candidate, c, 0.05 + extraMargin)
  }

  lemma CandidateOk(x: Input, candidate: Job, c: nat)
    requires JobsOk(Jobs(x.v, Some(candidate)), c)
    ensures c < |candidate.relative|
  {
    assert Jobs(x.v, Some(candidate))[0] == candidate;
  }

  /** A job is admitted exactly if it is welcome at the present and all higher criticality levels. */
  method IsAdmissible(x: Input, candidate: Job, extraMargin: real) returns (ok: bool)
    requires extraMargin >= 0.0
    requires forall c :: x.local <= c < x.levels ==> JobsOk(Jobs(x.v, Some(candidate)), c) && TasksOk(x.v.tasks, c)
    ensures ok <==> forall c :: x.local <= c < x.levels ==> Welcome(x, candidate, c, extraMargin)
  {
    hide Left, Cut, Checkpoints, Jobs, SlackIs, Admits, JobDeadline;
    var c := x.local;
    while c < x.levels
      invariant x.local <= c
      invariant forall k :: x.local <= k < c && k < x.levels ==> Welcome(x, candidate, k, extraMargin)
    {
      CandidateOk(x, candidate, c);
      if JobDeadline(candidate, c) <= x.now {
        assert !Welcome(x, candidate, c, extraMargin);
        return false;
      }
      var available := FindSlack(x.v, Some(candidate), c, x.levels, candidate.arrival, x.now, 1.0, x.horizon, x.places);
      AdmitsExact(x, candidate, c, MARGIN + extraMargin, available);
      if available.Some? && available.value < MARGIN + extraMargin {
        assert !Welcome(x, candidate, c, extraMargin);
        return false;
      }
      c := c + 1;
    }
    return true;
  }

  lemma AdmitsExact(x: Input, candidate: Job, c: nat, margin: real, slack: Option<real>)
    requires JobsOk(Jobs(x.v, Some(candidate)), c) && TasksOk(x.v.tasks, c) && margin > 0.0
    requires SlackIs(x.v, Some(candidate), c, if candidate.arrival > x.now then candidate.arrival else x.now, 1.0,
                     x.horizon, x.places, slack)
    ensures (slack.None? || margin <= slack.value) <==> Admits(x, candidate, c, margin)
  {
    SlackIsExact(x.v, Some(candidate), c, if candidate.arrival > x.now then candidate.arrival else x.now, 1.0,
                 x.horizon, x.places, slack, margin);
  }
}
