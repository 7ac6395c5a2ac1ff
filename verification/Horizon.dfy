/** The analysis horizon of a core: the least common multiple of all periods in sight, capped. */
module Horizon {
  import opened Common
  import opened Numbers

  const HORIZON_CAP: nat := 5000

  predicate Word(ps: seq<nat>) {
    forall i :: 0 <= i < |ps| ==> ps[i] < UINT32_LIMIT
  }

  /** The periods of the allocated tasks that exist and are not zero. */
  function Present(tasks: seq<Option<nat>>): (ps: seq<nat>)
    ensures AllPositive(ps)
  {
    if tasks == [] then []
    else
      var front := Present(tasks[..|tasks| - 1]);
      var last := tasks[|tasks| - 1];
      if last.Some? && last.value > 0 then front + [last.value] else front
  }

  /** Exactly the positive periods are folded. */
  lemma {:induction false} PresentExactly(tasks: seq<Option<nat>>, p: nat)
    ensures p in Present(tasks) <==> p > 0 && Some(p) in tasks
  {
    if tasks != [] {
      var front, last := tasks[..|tasks| - 1], tasks[|tasks| - 1];
      PresentExactly(front, p);
      assert tasks == front + [last];
    }
  }

  function Capped(start: nat, ps: seq<nat>): nat
    requires start > 0 && AllPositive(ps)
  {
    Min(LcmFrom(start, ps), HORIZON_CAP)
  }

  /** One more period on the right. */
  lemma CappedMore(start: nat, ps: seq<nat>, p: nat)
    requires start > 0 && AllPositive(ps) && p > 0
    ensures Capped(start, ps + [p]) == Min(Lcm(Capped(start, ps), p), HORIZON_CAP)
    ensures Capped(start, ps) == HORIZON_CAP ==> Capped(start, ps + [p]) == HORIZON_CAP
    ensures 0 < Capped(start, ps) <= HORIZON_CAP
  {
    assert (ps + [p])[..|ps|] == ps;
    var l := LcmFrom(start, ps);
    CappedStep(l, p, HORIZON_CAP);
    LcmIsLeast(l, p, 0);
    DividesAtMost(l, Lcm(l, p));
  }

  /** Once the cap is reached, further periods do not matter. */
  lemma {:induction false} CappedStays(start: nat, ps: seq<nat>, qs: seq<nat>)
    requires start > 0 && AllPositive(ps) && AllPositive(qs) && Capped(start, ps) == HORIZON_CAP
    ensures AllPositive(ps + qs) && Capped(start, ps + qs) == HORIZON_CAP
  {
    LcmFromConcat(start, ps, qs);
    LcmFromGrows(LcmFrom(start, ps), qs);
  }

  /** Folding on from a capped value is the same as folding on from the true one. */
  lemma {:induction false} CappedContinues(start: nat, ps: seq<nat>, qs: seq<nat>)
    requires start > 0 && AllPositive(ps) && AllPositive(qs)
    ensures AllPositive(ps + qs) && Capped(start, ps) > 0
    ensures Capped(Capped(start, ps), qs) == Capped(start, ps + qs)
    decreases |qs|
  {
    LcmFromConcat(start, ps, qs);
    if qs == [] {
      assert ps + qs == ps;
    } else {
      var n := |qs| - 1;
      CappedContinues(start, ps, qs[..n]);
      assert qs == qs[..n] + [qs[n]];
      assert ps + qs == ps + qs[..n] + [qs[n]];
      CappedMore(start, ps + qs[..n], qs[n]);
      CappedMore(Capped(start, ps), qs[..n], qs[n]);
    }
  }

  /** The fold over the allocation map equals the capped least common multiple of the periods that
      count, although it stops as soon as the cap is reached. */
  method AllocatedHorizon(tasks: seq<Option<nat>>) returns (horizon: nat)
    requires forall i :: 0 <= i < |tasks| && tasks[i].Some? ==> tasks[i].value < UINT32_LIMIT
    ensures horizon == Min(LcmAll(Present(tasks)), HORIZON_CAP)
  {
    hide Lcm, LcmFrom;
    horizon := 1;
    StartsAtOne();
    for i := 0 to |tasks|
      invariant horizon == Capped(1, Present(tasks[..i])) && 0 < horizon <= HORIZON_CAP
    {
      assert tasks[..i + 1][..i] == tasks[..i];
      if tasks[i].None? || tasks[i].value == 0 {
        continue;
      }
      CappedMore(1, Present(tasks[..i]), tasks[i].value);
      horizon := SafeLcm(horizon, tasks[i].value, HORIZON_CAP);
      if horizon >= HORIZON_CAP {
        horizon := HORIZON_CAP;
        PresentPrefix(tasks, i + 1);
        return;
      }
    }
    assert tasks[..|tasks|] == tasks;
  }

  lemma StartsAtOne()
    ensures Present([]) == [] && LcmFrom(1, []) == 1
  {
  }

  lemma PresentPrefix(tasks: seq<Option<nat>>, i: nat)
    requires i <= |tasks| && Capped(1, Present(tasks[..i])) == HORIZON_CAP
    ensures Capped(1, Present(tasks)) == HORIZON_CAP
  {
    PresentConcat(tasks[..i], tasks[i..]);
    assert tasks == tasks[..i] + tasks[i..];
    CappedStays(1, Present(tasks[..i]), Present(tasks[i..]));
  }

  lemma {:induction false} PresentConcat(a: seq<Option<nat>>, b: seq<Option<nat>>)
    ensures Present(a + b) == Present(a) + Present(b)
    decreases |b|
  {
    if b == [] {
      assert a + b == a;
    } else {
      PresentConcat(a, b[..|b| - 1]);
      assert (a + b)[..|a + b| - 1] == a + b[..|b| - 1];
    }
  }

  /** A period taken as it is may exceed the cap; the next one brings it down all the same. */
  lemma FirstUncapped(start: nat, p: nat)
    requires start > 0 && p > 0
    ensures Capped(start, []) > 0
    ensures Min(Lcm(start, p), HORIZON_CAP) == Min(Lcm(Capped(start, []), p), HORIZON_CAP)
  {
    StartsAt(start);
    CappedStep(start, p, HORIZON_CAP);
  }

  /** The fold over one queue, with its early exit. */
  method QueueHorizon(periods: seq<nat>, start: nat) returns (horizon: nat)
    requires AllPositive(periods) && Word(periods) && start <= HORIZON_CAP
    ensures start > 0 ==> horizon == Capped(start, periods) && 0 < horizon <= HORIZON_CAP
    ensures start == 0 && |periods| <= 1 ==> horizon == if periods == [] then 0 else periods[0]
    ensures start == 0 && |periods| > 1 ==> horizon == Capped(periods[0], periods[1..])
  {
    hide Lcm, LcmFrom;
    horizon := start;
    if start > 0 {
      StartsAt(start);
    }
    for i := 0 to |periods|
      invariant horizon < UINT32_LIMIT
      invariant start > 0 ==> horizon == Capped(start, periods[..i]) && 0 < horizon <= HORIZON_CAP
      invariant start == 0 && i <= 1 ==> horizon == if i == 0 then 0 else periods[0]
      invariant start == 0 && i > 1 ==> horizon == Capped(periods[0], periods[1..i]) && 0 < horizon <= HORIZON_CAP
    {
      assert periods[..i + 1] == periods[..i] + [periods[i]];
      if horizon == 0 {
        horizon := periods[i];
      } else {
        if start > 0 {
          CappedMore(start, periods[..i], periods[i]);
        } else {
          assert periods[1..i + 1] == periods[1..i] + [periods[i]];
          CappedMore(periods[0], periods[1..i], periods[i]);
          FirstUncapped(periods[0], periods[i]);
        }
        horizon := SafeLcm(horizon, periods[i], HORIZON_CAP);
        if horizon >= HORIZON_CAP {
          horizon := HORIZON_CAP;
          if start > 0 {
            CappedStays(start, periods[..i + 1], periods[i + 1..]);
          } else {
            CappedStays(periods[0], periods[1..i + 1], periods[i + 1..]);
            assert periods[1..] == periods[1..i + 1] + periods[i + 1..];
          }
          assert periods == periods[..i + 1] + periods[i + 1..];
          return;
        }
      }
    }
    assert periods[..|periods|] == periods;
  }

  lemma StartsAt(start: nat)
    requires start > 0
    ensures LcmFrom(start, []) == start
  {
  }

  /** The horizon used by the analysis: from the cached value of the allocated tasks through the
      running job and the three queues. It is the capped least common multiple of all their periods,
      so neither the order nor the early exits matter. */
  method AnalysisHorizon(alloc: seq<nat>, cached: nat, running: Option<nat>,
                         ready: seq<nat>, replicas: seq<nat>, pending: seq<nat>) returns (horizon: nat)
    requires AllPositive(alloc) && cached == Min(LcmAll(alloc), HORIZON_CAP)
    requires AllPositive(ready) && AllPositive(replicas) && AllPositive(pending)
    requires Word(ready) && Word(replicas) && Word(pending)
    requires running.Some? ==> 0 < running.value < UINT32_LIMIT
    ensures AllPositive(alloc + (if running.Some? then [running.value] else []) + ready + replicas + pending)
    ensures var all := alloc + (if running.Some? then [running.value] else []) + ready + replicas + pending;
            horizon == Min(LcmAll(all), HORIZON_CAP)
    ensures 0 < horizon
  {
    hide Lcm, LcmFrom, Present;
    ghost var all := alloc;
    horizon := cached;
    if running.Some? {
      CappedMore(1, alloc, running.value);
      horizon := SafeLcm(horizon, running.value, HORIZON_CAP);
      all := all + [running.value];
    } else {
      CappedMore(1, alloc, 1);
      assert alloc + [] == alloc;
    }
    CappedContinues(1, all, ready);
    horizon := QueueHorizon(ready, horizon);
    CappedContinues(1, all + ready, replicas);
    horizon := QueueHorizon(replicas, horizon);
    CappedContinues(1, all + ready + replicas, pending);
    horizon := QueueHorizon(pending, horizon);
  }
}
