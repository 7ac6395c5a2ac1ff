/** The search for the deadlines of one mode, as a deterministic course of states: which tasks may
    still be reduced, which reductions are in force, and how it can end. */
module Search {
  import opened Common
  import opened Numbers
  import opened Demand
  import opened DemandBound

  // ---- lists --------------------------------------------------------------------------------

  predicate Distinct<T(==)>(ts: seq<T>) {
    forall i, j :: 0 <= i < j < |ts| ==> ts[i] != ts[j]
  }

  /** Removes the first occurrence, as list removal does. */
  function RemoveFirst<T(==)>(ts: seq<T>, t: T): (r: seq<T>)
    requires t in ts
    ensures forall u :: u in r ==> u in ts
    ensures forall j :: 0 <= j < |r| ==> r[j] in ts
    ensures forall u :: u in ts && u != t ==> u in r
  {
    if ts[0] == t then ts[1..] else [ts[0]] + RemoveFirst(ts[1..], t)
  }

  lemma {:induction false} RemoveApart<T>(ts: seq<T>, t: T)
    requires t in ts && Distinct(ts)
    ensures Distinct(RemoveFirst(ts, t)) && t !in RemoveFirst(ts, t)
  {
    assert Distinct(ts[1..]) && ts[0] !in ts[1..];
    if ts[0] != t {
      RemoveApart(ts[1..], t);
    }
  }

  lemma AppendedApart<T>(ts: seq<T>, t: T)
    requires Distinct(ts)
    ensures Distinct(if t in ts then ts else ts + [t])
  {
  }

  // ---- deadlines of one mode ----------------------------------------------------------------

  predicate AnyAbove(cs: seq<Tuned>, m: int) {
    exists i :: 0 <= i < |cs| && cs[i].task.crit > m
  }

  /** The demand tests that a tuning pass at level `m` has to meet, up to a length. */
  predicate Tested(cs: seq<Tuned>, m: nat, bound: int, levels: nat)
    requires AllValid(cs, levels) && m + 1 < levels
  {
    && PassesUpTo(cs, m, bound, levels)
    && (m == 0 ==> PassesUpTo(cs, -1, bound, levels))
  }

  predicate Violated(cs: seq<Tuned>, m: nat, l: int, steady: bool, levels: nat)
    requires AllValid(cs, levels) && m + 1 < levels
  {
    if steady then m == 0 && TotalDbf(cs, -1, l, levels) > l
    else TotalDbf(cs, m, l, levels) > l
  }

  lemma TestedNotViolated(now: seq<Tuned>, m: nat, l: int, steady: bool, bound: int, levels: nat)
    requires AllValid(now, levels) && m + 1 < levels && 0 <= l <= bound
    requires Tested(now, m, bound, levels)
    ensures !Violated(now, m, l, steady, levels)
  {
    hide TotalDbf;
  }

  /** Only the deadline at mode `m` of tasks above level `m` may differ from the earlier list. */
  predicate OnlyModeChanged(before: seq<Tuned>, after: seq<Tuned>, m: nat) {
    && |before| == |after|
    && forall i :: 0 <= i < |before| ==>
         && after[i].task == before[i].task
         && m < |before[i].vd| && |after[i].vd| == |before[i].vd|
         && after[i].vd == before[i].vd[m := after[i].vd[m]]
         && (after[i].task.crit <= m ==> after[i].vd == before[i].vd)
  }

  /** The deadline at mode `m` from which the search of a task starts. */
  function StartVd(c: Tuned, m: nat): int
    requires m + 1 < |c.vd|
  {
    Min(c.vd[m], c.vd[m + 1])
  }

  function WithDeadline(c: Tuned, m: nat, v: int): Tuned
    requires m < |c.vd|
  {
    c.(vd := c.vd[m := v])
  }

  predicate HasPair(cs: seq<Tuned>, m: nat) {
    forall i :: 0 <= i < |cs| ==> m + 1 < |cs[i].vd| && m + 1 < |cs[i].task.wcet|
  }

  lemma ValidHasPair(cs: seq<Tuned>, m: nat, levels: nat)
    requires AllValid(cs, levels) && m + 1 < levels
    ensures HasPair(cs, m)
  {
  }

  /** Every task above the level has a deadline that leaves room for its execution time. */
  predicate Clampable(before: seq<Tuned>, m: nat) {
    forall i :: 0 <= i < |before| && before[i].task.crit > m ==>
      && m + 1 < |before[i].vd| && m < |before[i].task.wcet|
      && before[i].task.wcet[m] <= StartVd(before[i], m)
  }

  function Clamp(c: Tuned, m: nat): Tuned
    requires m + 1 < |c.vd|
  {
    WithDeadline(c, m, StartVd(c, m))
  }

  /** The deadlines after the tasks at the positions `done` have been clamped. */
  function ClampThese(before: seq<Tuned>, done: seq<nat>, m: nat): (r: seq<Tuned>)
    requires HasPair(before, m)
    ensures |r| == |before|
    ensures forall i :: 0 <= i < |r| ==> r[i] == if i in done then Clamp(before[i], m) else before[i]
  {
    seq(|before|, i requires 0 <= i < |before| => if i in done then Clamp(before[i], m) else before[i])
  }

  /** The positions of the tasks above the level, in order. */
  function AboveAt(cs: seq<Tuned>, m: nat): (r: seq<nat>)
    ensures forall i: nat :: i in r <==> i < |cs| && cs[i].task.crit > m
    ensures forall j :: 0 <= j < |r| ==> r[j] < |cs| && cs[r[j]].task.crit > m
    ensures Distinct(r)
  {
    if cs == [] then []
    else
      var k := |cs| - 1;
      var front := AboveAt(cs[..k], m);
      assert forall i :: i in front ==> i < k;
      assert forall i :: 0 <= i < k ==> cs[..k][i] == cs[i];
      if cs[k].task.crit > m then front + [k] else front
  }

  /** The deadlines from which the search starts. */
  function ClampAll(before: seq<Tuned>, m: nat): (r: seq<Tuned>)
    requires HasPair(before, m)
    ensures |r| == |before|
    ensures forall i :: 0 <= i < |r| ==> r[i] == if before[i].task.crit > m then Clamp(before[i], m) else before[i]
  {
    ClampThese(before, AboveAt(before, m), m)
  }

  /** The task is above the level and its deadline leaves more than its execution time. */
  predicate HasRoom(c: Tuned, m: nat) {
    c.task.crit > m && m < |c.vd| && m < |c.task.wcet| && c.task.wcet[m] < c.vd[m]
  }

  /** The positions, among those given, of tasks with room. */
  function Roomy(cs: seq<Tuned>, ks: seq<nat>, m: nat): (r: seq<nat>)
    requires forall j :: 0 <= j < |ks| ==> ks[j] < |cs|
    ensures forall k: nat :: k in r <==> k in ks && HasRoom(cs[k], m)
    ensures forall j :: 0 <= j < |r| ==> r[j] in ks
    ensures Distinct(ks) ==> Distinct(r)
  {
    if ks == [] then []
    else
      var n := |ks| - 1;
      var front := Roomy(cs, ks[..n], m);
      assert ks == ks[..n] + [ks[n]];
      assert Distinct(ks) ==> Distinct(ks[..n]) && ks[n] !in ks[..n];
      if HasRoom(cs[ks[n]], m) then front + [ks[n]] else front
  }

  predicate Down(c: Tuned, m: nat) {
    m < |c.vd| && m < |c.task.wcet| && c.vd[m] == c.task.wcet[m]
  }

  // ---- states and steps ---------------------------------------------------------------------

  /** Where the search stands: the deadlines, the candidates, and the reductions in force, the last one
      at the end; tasks are named by their position. `undone` records the tasks that have been given
      a reduction back. */
  datatype State = State(now: seq<Tuned>, tc: seq<nat>, mods: seq<nat>, undone: set<nat>)

  function StartOf(before: seq<Tuned>, m: nat): State
    requires HasPair(before, m)
  {
    var now := ClampAll(before, m);
    State(now, Roomy(now, AboveAt(now, m), m), [], {})
  }

  /** The deadlines and positions make sense. */
  predicate Shaped(s: State, m: nat, levels: nat) {
    && m + 1 < levels && AllValid(s.now, levels)
    && (forall j :: 0 <= j < |s.tc| ==> s.tc[j] < |s.now|)
    && (forall j :: 0 <= j < |s.mods| ==> s.mods[j] < |s.now|)
  }

  /** The first length, up to the bound, whose demand does not fit; the steady state is tested first. */
  predicate FirstBad(now: seq<Tuned>, m: nat, l: int, steady: bool, levels: nat)
    requires AllValid(now, levels) && m + 1 < levels
  {
    && 0 <= l <= LMax(now, m, LENGTH_CAP, levels)
    && Tested(now, m, l - 1, levels)
    && Violated(now, m, l, steady, levels)
    && (!steady ==> !Violated(now, m, l, true, levels))
  }

  /** The first of the candidates whose reduction removes the most demand at `l`. */
  predicate IsTarget(s: State, k: nat, m: nat, l: int, levels: nat)
    requires Shaped(s, m, levels)
  {
    && k < |s.tc|
    && (forall j :: 0 <= j < |s.tc| ==> Gain(s.now[s.tc[j]], m, l, levels) <= Gain(s.now[s.tc[k]], m, l, levels))
    && (forall j :: 0 <= j < k ==> Gain(s.now[s.tc[j]], m, l, levels) < Gain(s.now[s.tc[k]], m, l, levels))
  }

  /** One more reduction; a candidate that reaches its execution time is one no longer. */
  function Lowered(s: State, k: nat, m: nat, levels: nat): State
    requires Shaped(s, m, levels) && k < |s.tc|
  {
    var i := s.tc[k];
    var v := s.now[i].vd[m] - 1;
    State(s.now[i := WithDeadline(s.now[i], m, v)],
          if v == s.now[i].task.wcet[m] then RemoveFirst<nat>(s.tc, i) else s.tc,
          s.mods + [i], s.undone)
  }

  /** The last reduction is given back, and its task is a candidate no longer. */
  function GivenBack(s: State, m: nat, levels: nat): State
    requires Shaped(s, m, levels) && s.mods != []
  {
    var i := s.mods[|s.mods| - 1];
    State(s.now[i := WithDeadline(s.now[i], m, s.now[i].vd[m] + 1)],
          RemoveFirst<nat>(if i in s.tc then s.tc else s.tc + [i], i),
          s.mods[..|s.mods| - 1], s.undone + {i})
  }

  ghost predicate Lowers(s: State, s': State, m: nat, levels: nat) {
    && Shaped(s, m, levels)
    && exists l, k: nat :: FirstBad(s.now, m, l, false, levels) && IsTarget(s, k, m, l, levels) && k < |s.tc|
        && s' == Lowered(s, k, m, levels)
  }

  ghost predicate GivesBack(s: State, s': State, m: nat, levels: nat) {
    && Shaped(s, m, levels) && s.mods != []
    && (exists l :: FirstBad(s.now, m, l, true, levels)) && s' == GivenBack(s, m, levels)
  }

  ghost predicate Moves(s: State, s': State, m: nat, levels: nat) {
    Lowers(s, s', m, levels) || GivesBack(s, s', m, levels)
  }

  /** Every length up to the bound fits. */
  predicate Finished(s: State, m: nat, levels: nat) {
    Shaped(s, m, levels) && Tested(s.now, m, LMax(s.now, m, LENGTH_CAP, levels), levels)
  }

  /** The steady state does not fit some length and there is no reduction left to give back. */
  ghost predicate StuckSteady(s: State, m: nat, levels: nat) {
    Shaped(s, m, levels) && s.mods == [] && exists l :: FirstBad(s.now, m, l, true, levels)
  }

  /** The pair of modes does not fit some length and there is no candidate left. */
  ghost predicate StuckPair(s: State, m: nat, levels: nat) {
    Shaped(s, m, levels) && s.tc == [] && exists l :: FirstBad(s.now, m, l, false, levels)
  }

  ghost predicate Stuck(s: State, m: nat, levels: nat) {
    StuckSteady(s, m, levels) || StuckPair(s, m, levels)
  }

  /** The search is at `s` after `n` steps. */
  ghost predicate ReachedIn(start: State, s: State, n: nat, m: nat, levels: nat)
    decreases n
  {
    if n == 0 then s == start
    else exists prev :: ReachedIn(start, prev, n - 1, m, levels) && Moves(prev, s, m, levels)
  }

  // ---- what a step looks at -----------------------------------------------------------------

  lemma ValidParts(cs: seq<Tuned>, levels: nat)
    requires AllValid(cs, levels)
    ensures forall i :: 0 <= i < |cs| ==> |cs[i].vd| == levels && |cs[i].task.wcet| == levels
  {
  }

  /** At `l`, and at no shorter length, the demand of the pair of modes is too large; at level 0 the steady
      state fits all lengths up to and including `l`. */
  ghost predicate PairTooLarge(now: seq<Tuned>, m: nat, l: int, levels: nat)
    requires AllValid(now, levels) && m + 1 < levels
  {
    && 0 <= l < TotalDbf(now, m, l, levels)
    && (forall k :: 0 <= k < l ==> TotalDbf(now, m, k, levels) <= k)
    && (m == 0 ==> forall k :: 0 <= k <= l ==> TotalDbf(now, -1, k, levels) <= k)
  }

  /** At `l`, and at no shorter length, the demand of the steady state is too large; the pair of modes fits
      all shorter lengths. */
  ghost predicate SteadyTooLarge(now: seq<Tuned>, m: nat, l: int, levels: nat)
    requires AllValid(now, levels) && m + 1 < levels
  {
    && m == 0 && 0 <= l < TotalDbf(now, -1, l, levels)
    && (forall k :: 0 <= k < l ==> TotalDbf(now, -1, k, levels) <= k)
    && (forall k :: 0 <= k < l ==> TotalDbf(now, 0, k, levels) <= k)
  }

  lemma FirstBadExact(now: seq<Tuned>, m: nat, l: int, steady: bool, levels: nat)
    requires AllValid(now, levels) && m + 1 < levels
    ensures FirstBad(now, m, l, steady, levels) <==>
              && l <= LMax(now, m, LENGTH_CAP, levels)
              && if steady then SteadyTooLarge(now, m, l, levels) else PairTooLarge(now, m, l, levels)
  {
    hide TotalDbf, LMax;
  }

  /** A reduction is made exactly where the pair of modes is too large although the steady state fits so far,
      and it takes one unit off the deadline of one candidate. */
  lemma LowersExact(s: State, s': State, m: nat, levels: nat) returns (l: int, i: nat)
    requires Lowers(s, s', m, levels)
    ensures Shaped(s, m, levels) && l <= LMax(s.now, m, LENGTH_CAP, levels) && PairTooLarge(s.now, m, l, levels)
    ensures i in s.tc && i < |s.now| && m < |s.now[i].vd|
    ensures s'.now == s.now[i := s.now[i].(vd := s.now[i].vd[m := s.now[i].vd[m] - 1])]
    ensures s'.mods == s.mods + [i]
    ensures forall j :: j in s.tc ==> j < |s.now| && Gain(s.now[j], m, l, levels) <= Gain(s.now[i], m, l, levels)
  {
    hide TotalDbf, LMax, Gain, FirstBad, RemoveFirst, AllValid;
    var l', k: nat :| FirstBad(s.now, m, l', false, levels) && IsTarget(s, k, m, l', levels) && k < |s.tc|
        && s' == Lowered(s, k, m, levels);
    l, i := l', s.tc[k];
    ValidParts(s.now, levels);
    FirstBadExact(s.now, m, l, false, levels);
  }

  /** A reduction is given back exactly where the steady state is too large although the pair of modes fits so
      far, and it is the latest one in force. */
  lemma GivesBackExact(s: State, s': State, m: nat, levels: nat) returns (l: int, i: nat)
    requires GivesBack(s, s', m, levels)
    ensures Shaped(s, m, levels) && l <= LMax(s.now, m, LENGTH_CAP, levels) && SteadyTooLarge(s.now, m, l, levels)
    ensures i < |s.now| && m < |s.now[i].vd|
    ensures s'.now == s.now[i := s.now[i].(vd := s.now[i].vd[m := s.now[i].vd[m] + 1])]
    ensures s.mods == s'.mods + [i]
  {
    hide TotalDbf, LMax, FirstBad, RemoveFirst, AllValid;
    var l' :| FirstBad(s.now, m, l', true, levels);
    l, i := l', s.mods[|s.mods| - 1];
    ValidParts(s.now, levels);
    FirstBadExact(s.now, m, l, true, levels);
  }

  /** Giving back right after a reduction restores all deadlines and the reductions in force. */
  lemma GivingBackUndoes(s: State, s1: State, s2: State, m: nat, levels: nat)
    requires Lowers(s, s1, m, levels) && GivesBack(s1, s2, m, levels)
    ensures s2.now == s.now && s2.mods == s.mods
  {
    hide PairTooLarge, SteadyTooLarge, Lowers, GivesBack, Gain, LMax, RemoveFirst, Shaped, AllValid;
    var l, i := LowersExact(s, s1, m, levels);
    var l', j := GivesBackExact(s1, s2, m, levels);
    assert i == j by {
      assert s.mods + [i] == s2.mods + [j];
      assert (s.mods + [i])[|s.mods|] == i;
    }
    assert s.mods == (s.mods + [i])[..|s.mods|];
    var d := s.now[i].vd;
    assert d[m := d[m] - 1][m := d[m]] == d;
  }

  // ---- how a pass ends ----------------------------------------------------------------------

  /** The pass at level `m` succeeds and leaves these deadlines. */
  ghost predicate Passes(before: seq<Tuned>, after: seq<Tuned>, m: nat, levels: nat) {
    && m < levels && AllValid(before, levels)
    && if m + 1 < levels && AnyAbove(before, m) then
         && Clampable(before, m) && HasPair(before, m)
         && exists s, n :: ReachedIn(StartOf(before, m), s, n, m, levels) && Finished(s, m, levels) && after == s.now
       else after == before
  }

  /** The pass at level `m` fails: a task does not fit from the start, or the search gets stuck. */
  ghost predicate Fails(before: seq<Tuned>, m: nat, levels: nat) {
    && m + 1 < levels && AllValid(before, levels) && AnyAbove(before, m) && HasPair(before, m)
    && (!Clampable(before, m)
        || exists s, n :: ReachedIn(StartOf(before, m), s, n, m, levels) && Stuck(s, m, levels))
  }

  // ---- the search is deterministic ----------------------------------------------------------

  lemma FirstBadOnce(now: seq<Tuned>, m: nat, l1: int, s1: bool, l2: int, s2: bool, levels: nat)
    requires AllValid(now, levels) && m + 1 < levels
    requires FirstBad(now, m, l1, s1, levels) && FirstBad(now, m, l2, s2, levels)
    ensures l1 == l2 && s1 == s2
  {
    hide TotalDbf, LMax, Tested, Violated;
    if l1 < l2 {
      TestedNotViolated(now, m, l1, s1, l2 - 1, levels);
    } else if l2 < l1 {
      TestedNotViolated(now, m, l2, s2, l1 - 1, levels);
    }
  }

  lemma FinishedNoBad(s: State, m: nat, l: int, steady: bool, levels: nat)
    requires Finished(s, m, levels)
    ensures !FirstBad(s.now, m, l, steady, levels)
  {
    hide TotalDbf, LMax, Tested, Violated;
    var bound := LMax(s.now, m, LENGTH_CAP, levels);
    if 0 <= l <= bound {
      TestedNotViolated(s.now, m, l, steady, bound, levels);
    }
  }

  lemma TargetOnce(s: State, i: nat, j: nat, m: nat, l: int, levels: nat)
    requires Shaped(s, m, levels) && IsTarget(s, i, m, l, levels) && IsTarget(s, j, m, l, levels)
    ensures i == j
  {
    var a, b := Gain(s.now[s.tc[i]], m, l, levels), Gain(s.now[s.tc[j]], m, l, levels);
    hide Gain;
    assert a <= b <= a && (i < j ==> a < b) && (j < i ==> b < a);
  }

  lemma MovesOnce(s: State, a: State, b: State, m: nat, levels: nat)
    requires Moves(s, a, m, levels) && Moves(s, b, m, levels)
    ensures a == b
  {
    hide FirstBad, IsTarget, Lowered, GivenBack;
    if Lowers(s, a, m, levels) {
      var l, k: nat :| FirstBad(s.now, m, l, false, levels) && IsTarget(s, k, m, l, levels) && k < |s.tc|
          && a == Lowered(s, k, m, levels);
      if Lowers(s, b, m, levels) {
        var l', k': nat :| FirstBad(s.now, m, l', false, levels) && IsTarget(s, k', m, l', levels)
                           && k' < |s.tc| && b == Lowered(s, k', m, levels);
        FirstBadOnce(s.now, m, l, false, l', false, levels);
        TargetOnce(s, k, k', m, l, levels);
      } else {
        var l' :| FirstBad(s.now, m, l', true, levels);
        FirstBadOnce(s.now, m, l, false, l', true, levels);
      }
    } else if Lowers(s, b, m, levels) {
      var l :| FirstBad(s.now, m, l, true, levels);
      var l', k': nat :| FirstBad(s.now, m, l', false, levels) && IsTarget(s, k', m, l', levels) && k' < |s.tc|
          && b == Lowered(s, k', m, levels);
      FirstBadOnce(s.now, m, l, true, l', false, levels);
    }
  }

  ghost predicate Ended(s: State, m: nat, levels: nat) {
    Finished(s, m, levels) || Stuck(s, m, levels)
  }

  lemma EndedStays(s: State, s': State, m: nat, levels: nat)
    requires Ended(s, m, levels)
    ensures !Moves(s, s', m, levels) && !(Finished(s, m, levels) && Stuck(s, m, levels))
  {
    hide FirstBad, Lowered, GivenBack, Finished;
    if Finished(s, m, levels) {
      forall l, steady | Shaped(s, m, levels) ensures !FirstBad(s.now, m, l, steady, levels) {
        FinishedNoBad(s, m, l, steady, levels);
      }
    } else {
      var l, steady :| Shaped(s, m, levels) && FirstBad(s.now, m, l, steady, levels)
                       && (if steady then s.mods == [] else s.tc == []);
      forall l', steady' | FirstBad(s.now, m, l', steady', levels) ensures l' == l && steady' == steady {
        FirstBadOnce(s.now, m, l, steady, l', steady', levels);
      }
    }
  }

  lemma {:induction false} ReachedOnce(start: State, a: State, b: State, n: nat, m: nat, levels: nat)
    requires ReachedIn(start, a, n, m, levels) && ReachedIn(start, b, n, m, levels)
    ensures a == b
    decreases n
  {
    hide Moves;
    if n > 0 {
      var a' :| ReachedIn(start, a', n - 1, m, levels) && Moves(a', a, m, levels);
      var b' :| ReachedIn(start, b', n - 1, m, levels) && Moves(b', b, m, levels);
      ReachedOnce(start, a', b', n - 1, m, levels);
      MovesOnce(a', a, b, m, levels);
    }
  }

  /** A state on the way is left again. */
  lemma {:induction false} OnTheWay(start: State, a: State, i: nat, b: State, n: nat, m: nat, levels: nat)
    requires ReachedIn(start, a, i, m, levels) && ReachedIn(start, b, n, m, levels) && i < n
    ensures exists next :: Moves(a, next, m, levels)
    decreases n
  {
    hide Moves;
    var b' :| ReachedIn(start, b', n - 1, m, levels) && Moves(b', b, m, levels);
    if i == n - 1 {
      ReachedOnce(start, a, b', i, m, levels);
    } else {
      OnTheWay(start, a, i, b', n - 1, m, levels);
    }
  }

  /** A search ends in one state at most. */
  lemma EndsOnce(start: State, a: State, i: nat, b: State, n: nat, m: nat, levels: nat)
    requires ReachedIn(start, a, i, m, levels) && Ended(a, m, levels)
    requires ReachedIn(start, b, n, m, levels) && Ended(b, m, levels)
    ensures a == b && i == n
  {
    hide Moves, Ended, ReachedIn;
    forall x ensures !Moves(a, x, m, levels) && !Moves(b, x, m, levels) {
      EndedStays(a, x, m, levels);
      EndedStays(b, x, m, levels);
    }
    if i < n {
      OnTheWay(start, a, i, b, n, m, levels);
    } else if n < i {
      OnTheWay(start, b, n, a, i, m, levels);
    } else {
      ReachedOnce(start, a, b, n, m, levels);
    }
  }

  /** A pass does not both succeed and fail, and it succeeds in one way only. */
  lemma PassesOrFails(before: seq<Tuned>, a: seq<Tuned>, b: seq<Tuned>, m: nat, levels: nat)
    requires Passes(before, a, m, levels)
    ensures !Fails(before, m, levels) && (Passes(before, b, m, levels) ==> a == b)
  {
    hide ReachedIn, Finished, Stuck, StartOf, Clampable, AnyAbove, HasPair;
    if m + 1 < levels && AnyAbove(before, m) {
      var s, n :| ReachedIn(StartOf(before, m), s, n, m, levels) && Finished(s, m, levels) && a == s.now;
      if Fails(before, m, levels) {
        var s', n' :| ReachedIn(StartOf(before, m), s', n', m, levels) && Stuck(s', m, levels);
        EndsOnce(StartOf(before, m), s, n, s', n', m, levels);
        EndedStays(s, s, m, levels);
      }
      if Passes(before, b, m, levels) {
        var s', n' :| ReachedIn(StartOf(before, m), s', n', m, levels) && Finished(s', m, levels) && b == s'.now;
        EndsOnce(StartOf(before, m), s, n, s', n', m, levels);
      }
    }
  }

  // ---- what the search keeps ----------------------------------------------------------------

  /** Every deadline plus the number of its reductions in force is its starting value. */
  predicate Accounted(before: seq<Tuned>, now: seq<Tuned>, mods: seq<nat>, m: nat) {
    && |before| == |now| && HasPair(before, m) && HasPair(now, m)
    && (forall j :: 0 <= j < |mods| ==> mods[j] < |now| && now[mods[j]].task.crit > m)
    && forall i :: 0 <= i < |now| && now[i].task.crit > m ==>
         now[i].vd[m] + multiset(mods)[i] == StartVd(before[i], m)
  }

  predicate CandidatesOk(now: seq<Tuned>, tc: seq<nat>, m: nat) {
    Distinct(tc) && forall j :: 0 <= j < |tc| ==> tc[j] < |now| && HasRoom(now[tc[j]], m)
  }

  /** Of the tasks above level `m`, those that are no longer candidates have their deadline down at
      their execution time, or have been given a reduction back. */
  predicate Spent(now: seq<Tuned>, tc: seq<nat>, undone: set<nat>, m: nat) {
    forall i :: 0 <= i < |now| && now[i].task.crit > m ==> i in tc || i in undone || Down(now[i], m)
  }

  predicate Inv(before: seq<Tuned>, s: State, m: nat, levels: nat) {
    && Shaped(s, m, levels) && AllValid(before, levels)
    && AllReady(s.now, m, levels)
    && OnlyModeChanged(before, s.now, m)
    && Accounted(before, s.now, s.mods, m)
    && CandidatesOk(s.now, s.tc, m)
    && Spent(s.now, s.tc, s.undone, m)
    && (m > 0 ==> s.undone == {})
  }

  lemma StartInv(before: seq<Tuned>, m: nat, levels: nat)
    requires AllValid(before, levels) && m + 1 < levels && Clampable(before, m)
    ensures HasPair(before, m) && Inv(before, StartOf(before, m), m, levels)
  {
    hide Distinct, AboveAt, Roomy, Clampable, ClampThese, OnlyModeChanged, Accounted, CandidatesOk, Spent, AllReady,
        ValidTuned;
    ValidHasPair(before, m, levels);
    ClampValid(before, AboveAt(before, m), m, levels);
    var now := ClampAll(before, m);
    ValidHasPair(now, m, levels);
    StartReady(before, m, levels);
    StartCandidates(now, m);
  }

  lemma StartReady(before: seq<Tuned>, m: nat, levels: nat)
    requires AllValid(before, levels) && m + 1 < levels && Clampable(before, m) && HasPair(before, m)
    requires AllValid(ClampAll(before, m), levels)
    ensures AllReady(ClampAll(before, m), m, levels) && Accounted(before, ClampAll(before, m), [], m)
    ensures forall i :: 0 <= i < |before| && before[i].task.crit > m ==>
              HasRoom(ClampAll(before, m)[i], m) || Down(ClampAll(before, m)[i], m)
  {
    hide ClampThese, AboveAt, ValidTuned;
    ValidHasPair(ClampAll(before, m), m, levels);
  }

  lemma StartCandidates(now: seq<Tuned>, m: nat)
    requires forall i :: 0 <= i < |now| && now[i].task.crit > m ==> HasRoom(now[i], m) || Down(now[i], m)
    ensures CandidatesOk(now, Roomy(now, AboveAt(now, m), m), m)
    ensures Spent(now, Roomy(now, AboveAt(now, m), m), {}, m)
    ensures forall j :: 0 <= j < |Roomy(now, AboveAt(now, m), m)| ==> Roomy(now, AboveAt(now, m), m)[j] < |now|
  {
    hide Distinct, HasRoom, Down;
    var r := Roomy(now, AboveAt(now, m), m);
    forall j | 0 <= j < |r| ensures r[j] < |now| && HasRoom(now[r[j]], m) {
      assert r[j] in r;
    }
  }

  lemma ClampValid(before: seq<Tuned>, done: seq<nat>, m: nat, levels: nat)
    requires AllValid(before, levels) && m + 1 < levels && HasPair(before, m)
    requires forall i :: i in done ==> i < |before| && before[i].task.crit > m
    ensures AllValid(ClampThese(before, done, m), levels)
    ensures OnlyModeChanged(before, ClampThese(before, done, m), m)
  {
    var r := ClampThese(before, done, m);
    forall i | 0 <= i < |r| ensures ValidTuned(r[i], levels) {
      assert ValidTuned(before[i], levels);
    }
  }

  lemma WithDeadlineKeeps(before: seq<Tuned>, now: seq<Tuned>, i: nat, v: int, m: nat, levels: nat)
    requires m + 1 < levels && i < |now|
    requires AllValid(before, levels) && AllValid(now, levels) && AllReady(now, m, levels)
    requires OnlyModeChanged(before, now, m)
    requires now[i].task.crit > m && now[i].task.wcet[m] <= v <= now[i].vd[m + 1]
    ensures var now' := now[i := WithDeadline(now[i], m, v)];
            AllValid(now', levels) && AllReady(now', m, levels) && OnlyModeChanged(before, now', m)
  {
    var c := WithDeadline(now[i], m, v);
    var now' := now[i := c];
    assert ValidTuned(c, levels) && PairReady(c, m, levels);
    forall j | 0 <= j < |now'| ensures ValidTuned(now'[j], levels) && PairReady(now'[j], m, levels) {
      assert j != i ==> now'[j] == now[j];
    }
  }

  /** Total distance of the candidates' deadlines from their execution times. */
  function Room(now: seq<Tuned>, tc: seq<nat>, m: nat, n: nat): int
    requires n <= |now| && HasPair(now, m)
  {
    if n == 0 then 0
    else Room(now, tc, m, n - 1) + (if n - 1 in tc then now[n - 1].vd[m] - now[n - 1].task.wcet[m] else 0)
  }

  function RoomLeft(s: State, m: nat): int
    requires HasPair(s.now, m)
  {
    Room(s.now, s.tc, m, |s.now|)
  }

  /** The measure by which the search ends is never negative. */
  lemma {:induction false} RoomNonNegative(s: State, m: nat, n: nat)
    requires n <= |s.now| && HasPair(s.now, m) && CandidatesOk(s.now, s.tc, m)
    ensures Room(s.now, s.tc, m, n) >= 0
  {
    if n > 0 {
      RoomNonNegative(s, m, n - 1);
    }
  }

  /** Only the entry at `i` changes, and only its membership. */
  lemma {:induction false} RoomUpdate(now: seq<Tuned>, tc: seq<nat>, i: nat, c: Tuned, tc': seq<nat>, m: nat, n: nat)
    requires i < |now| && n <= |now| && HasPair(now, m) && m + 1 < |c.vd| && m + 1 < |c.task.wcet|
    requires forall j :: 0 <= j < |now| && j != i ==> (j in tc <==> j in tc')
    ensures HasPair(now[i := c], m)
    ensures Room(now[i := c], tc', m, n)
         == Room(now, tc, m, n)
            + (if i < n then (if i in tc' then c.vd[m] - c.task.wcet[m] else 0)
                             - (if i in tc then now[i].vd[m] - now[i].task.wcet[m] else 0)
               else 0)
  {
    if n > 0 {
      RoomUpdate(now, tc, i, c, tc', m, n - 1);
    }
  }

  lemma AccountedKeeps(before: seq<Tuned>, now: seq<Tuned>, mods: seq<nat>, i: nat, v: int, mods': seq<nat>, m: nat)
    requires Accounted(before, now, mods, m) && i < |now| && now[i].task.crit > m
    requires forall j :: 0 <= j < |mods'| ==> mods'[j] in mods || mods'[j] == i
    requires forall k: nat :: k != i ==> multiset(mods')[k] == multiset(mods)[k]
    requires v + multiset(mods')[i] == now[i].vd[m] + multiset(mods)[i]
    ensures Accounted(before, now[i := WithDeadline(now[i], m, v)], mods', m)
  {
  }

  lemma CandidatesKeep(now: seq<Tuned>, tc: seq<nat>, i: nat, c: Tuned, tc': seq<nat>, m: nat)
    requires CandidatesOk(now, tc, m) && i < |now| && Distinct(tc')
    requires forall j :: 0 <= j < |tc'| ==> tc'[j] in tc
    requires i in tc' ==> HasRoom(c, m)
    ensures CandidatesOk(now[i := c], tc', m)
    ensures forall j :: 0 <= j < |tc'| ==> tc'[j] < |now|
  {
    hide Distinct, HasRoom;
    forall j | 0 <= j < |tc'| ensures tc'[j] < |now| && HasRoom(now[i := c][tc'[j]], m) {
      assert tc'[j] in tc && tc'[j] in tc';
    }
  }

  lemma SpentKeeps(now: seq<Tuned>, tc: seq<nat>, undone: set<nat>, i: nat, c: Tuned, tc': seq<nat>, undone': set<nat>,
                   m: nat)
    requires Spent(now, tc, undone, m) && i < |now| && c.task == now[i].task
    requires forall j: nat :: j in tc && j != i ==> j in tc'
    requires undone <= undone' && (i in tc' || i in undone' || Down(c, m))
    ensures Spent(now[i := c], tc', undone', m)
  {
    hide Down;
  }

  /** One reduction of a candidate keeps the search state and uses up room. */
  lemma LowerKeeps(before: seq<Tuned>, s: State, k: nat, m: nat, levels: nat)
    requires Inv(before, s, m, levels) && k < |s.tc|
    ensures var s' := Lowered(s, k, m, levels);
            Inv(before, s', m, levels) && HasPair(s.now, m) && HasPair(s'.now, m) && RoomLeft(s', m) < RoomLeft(s, m)
  {
    hide OnlyModeChanged, Room, RemoveFirst, AllReady, Distinct, ValidTuned, Accounted, Spent;
    var s' := Lowered(s, k, m, levels);
    var i := s.tc[k];
    ValidHasPair(s.now, m, levels);
    assert i in s.tc;
    ReadyAt(s.now, i, m, levels);
    var c := s'.now[i];
    WithDeadlineKeeps(before, s.now, i, c.vd[m], m, levels);
    ValidHasPair(s'.now, m, levels);
    assert multiset(s'.mods) == multiset(s.mods) + multiset{i};
    AccountedKeeps(before, s.now, s.mods, i, c.vd[m], s'.mods, m);
    RemoveApart<nat>(s.tc, i);
    assert Distinct(s'.tc) && (i in s'.tc ==> HasRoom(c, m));
    CandidatesKeep(s.now, s.tc, i, c, s'.tc, m);
    SpentKeeps(s.now, s.tc, s.undone, i, c, s'.tc, s'.undone, m);
    RoomUpdate(s.now, s.tc, i, c, s'.tc, m, |s.now|);
  }

  lemma ReadyAt(now: seq<Tuned>, i: nat, m: nat, levels: nat)
    requires m + 1 < levels && AllValid(now, levels) && AllReady(now, m, levels) && i < |now| && now[i].task.crit > m
    ensures m + 1 < |now[i].vd| && m < |now[i].task.wcet| && now[i].task.wcet[m] <= now[i].vd[m] <= now[i].vd[m + 1]
  {
    assert PairReady(now[i], m, levels);
  }

  /** The last reduction in force can be given back without passing the next mode's deadline. */
  lemma LastInRange(before: seq<Tuned>, s: State, m: nat, levels: nat)
    requires Inv(before, s, m, levels) && s.mods != []
    ensures var i := s.mods[|s.mods| - 1];
            && i < |s.now| && s.now[i].task.crit > m && m + 1 < |s.now[i].vd| && m < |s.now[i].task.wcet|
            && s.now[i].task.wcet[m] <= s.now[i].vd[m] + 1 <= s.now[i].vd[m + 1]
  {
    hide Spent, CandidatesOk, ValidTuned;
    var i := s.mods[|s.mods| - 1];
    assert i in s.mods;
    ReadyAt(s.now, i, m, levels);
    assert s.now[i].vd[m] + multiset(s.mods)[i] == StartVd(before[i], m);
    assert s.now[i].vd[m + 1] == before[i].vd[m + 1];
  }

  /** Giving the last reduction back keeps the search state and uses up no room. */
  lemma GiveBackKeeps(before: seq<Tuned>, s: State, m: nat, levels: nat)
    requires Inv(before, s, m, levels) && s.mods != [] && m == 0
    ensures var s' := GivenBack(s, m, levels);
            Inv(before, s', m, levels) && HasPair(s.now, m) && HasPair(s'.now, m) && RoomLeft(s', m) <= RoomLeft(s, m)
  {
    hide OnlyModeChanged, Room, RemoveFirst, AllReady, Distinct, ValidTuned, Accounted, Spent;
    var s' := GivenBack(s, m, levels);
    var i := s.mods[|s.mods| - 1];
    LastInRange(before, s, m, levels);
    ValidHasPair(s.now, m, levels);
    var c := s'.now[i];
    WithDeadlineKeeps(before, s.now, i, c.vd[m], m, levels);
    ValidHasPair(s'.now, m, levels);
    assert s.mods == s'.mods + [i];
    assert multiset(s.mods) == multiset(s'.mods) + multiset{i};
    AccountedKeeps(before, s.now, s.mods, i, c.vd[m], s'.mods, m);
    AppendedApart(s.tc, i);
    RemoveApart<nat>(if i in s.tc then s.tc else s.tc + [i], i);
    assert Distinct(s'.tc) && i !in s'.tc;
    CandidatesKeep(s.now, s.tc, i, c, s'.tc, m);
    SpentKeeps(s.now, s.tc, s.undone, i, c, s'.tc, s'.undone, m);
    if i in s.tc {
      assert HasRoom(s.now[i], m);
    }
    RoomUpdate(s.now, s.tc, i, c, s'.tc, m, |s.now|);
  }

  lemma MovesKeeps(before: seq<Tuned>, s: State, s': State, m: nat, levels: nat)
    requires Inv(before, s, m, levels) && Moves(s, s', m, levels)
    ensures Inv(before, s', m, levels) && HasPair(s.now, m) && HasPair(s'.now, m)
    ensures RoomLeft(s', m) < RoomLeft(s, m) || (RoomLeft(s', m) <= RoomLeft(s, m) && |s'.mods| < |s.mods|)
  {
    hide Inv, RoomLeft, LMax, Tested, IsTarget;
    if Lowers(s, s', m, levels) {
      var l, k: nat :| FirstBad(s.now, m, l, false, levels) && IsTarget(s, k, m, l, levels) && k < |s.tc|
                       && s' == Lowered(s, k, m, levels);
      LowerKeeps(before, s, k, m, levels);
    } else {
      var l :| FirstBad(s.now, m, l, true, levels);
      GiveBackKeeps(before, s, m, levels);
    }
  }

  lemma TargetInRange(s: State, k: nat, m: nat, l: int, levels: nat)
    requires Shaped(s, m, levels) && IsTarget(s, k, m, l, levels)
    ensures k < |s.tc|
  {
  }

  /** In every state the search reaches, each deadline plus its reductions in force is its starting
      value, and what is not a candidate any more is down or has been given a reduction back. */
  lemma {:induction false} ReachedKeeps(before: seq<Tuned>, s: State, n: nat, m: nat, levels: nat)
    requires AllValid(before, levels) && m + 1 < levels && Clampable(before, m) && HasPair(before, m)
    requires ReachedIn(StartOf(before, m), s, n, m, levels)
    ensures Inv(before, s, m, levels)
    decreases n
  {
    hide Inv, Moves, StartOf, Clampable, HasPair;
    if n == 0 {
      StartInv(before, m, levels);
    } else {
      var prev :| ReachedIn(StartOf(before, m), prev, n - 1, m, levels) && Moves(prev, s, m, levels);
      ReachedKeeps(before, prev, n - 1, m, levels);
      MovesKeeps(before, prev, s, m, levels);
    }
  }

  // ---- the search ends ----------------------------------------------------------------------

  /** Either all lengths up to the bound fit, or there is a first one that does not. */
  lemma FindBad(now: seq<Tuned>, m: nat, levels: nat) returns (l: int, steady: bool)
    requires AllValid(now, levels) && m + 1 < levels
    ensures Tested(now, m, LMax(now, m, LENGTH_CAP, levels), levels) || FirstBad(now, m, l, steady, levels)
  {
    hide TotalDbf, LMax;
    var bound := LMax(now, m, LENGTH_CAP, levels);
    l, steady := 0, false;
    while l <= bound
      invariant 0 <= l && Tested(now, m, l - 1, levels) && !steady
      decreases bound + 1 - l
    {
      if Violated(now, m, l, true, levels) {
        return l, true;
      }
      if Violated(now, m, l, false, levels) {
        return l, false;
      }
      l := l + 1;
    }
  }

  lemma FindTarget(s: State, m: nat, l: int, levels: nat) returns (k: nat)
    requires Shaped(s, m, levels) && s.tc != []
    ensures IsTarget(s, k, m, l, levels)
  {
    hide Gain;
    k := 0;
    for i := 1 to |s.tc|
      invariant k < i
      invariant forall j :: 0 <= j < i ==> Gain(s.now[s.tc[j]], m, l, levels) <= Gain(s.now[s.tc[k]], m, l, levels)
      invariant forall j :: 0 <= j < k ==> Gain(s.now[s.tc[j]], m, l, levels) < Gain(s.now[s.tc[k]], m, l, levels)
    {
      if Gain(s.now[s.tc[i]], m, l, levels) > Gain(s.now[s.tc[k]], m, l, levels) {
        k := i;
      }
    }
  }

  /** A state that is not an end has a next one. */
  lemma Continues(s: State, m: nat, levels: nat) returns (s': State)
    requires Shaped(s, m, levels) && !Ended(s, m, levels)
    ensures Moves(s, s', m, levels)
  {
    hide FirstBad, Tested, LMax, Lowered, GivenBack, IsTarget;
    var l, steady := FindBad(s.now, m, levels);
    if steady {
      s' := GivenBack(s, m, levels);
      assert GivesBack(s, s', m, levels);
    } else {
      var k := FindTarget(s, m, l, levels);
      TargetInRange(s, k, m, l, levels);
      s' := Lowered(s, k, m, levels);
      assert Lowers(s, s', m, levels);
    }
  }

  lemma {:induction false} Ends(before: seq<Tuned>, start: State, s: State, n: nat, m: nat, levels: nat)
    returns (last: State, k: nat)
    requires Inv(before, s, m, levels) && HasPair(s.now, m) && ReachedIn(start, s, n, m, levels)
    ensures ReachedIn(start, last, k, m, levels) && Ended(last, m, levels)
    decreases RoomLeft(s, m), |s.mods|
  {
    hide Inv, Moves, Ended, RoomLeft;
    RoomNow(before, s, m, levels);
    if Ended(s, m, levels) {
      return s, n;
    }
    var s' := Continues(s, m, levels);
    MovesKeeps(before, s, s', m, levels);
    RoomNow(before, s', m, levels);
    assert ReachedIn(start, s', n + 1, m, levels);
    last, k := Ends(before, start, s', n + 1, m, levels);
  }

  lemma RoomNow(before: seq<Tuned>, s: State, m: nat, levels: nat)
    requires Inv(before, s, m, levels)
    ensures HasPair(s.now, m) && RoomLeft(s, m) >= 0 && Shaped(s, m, levels)
  {
    RoomNonNegative(s, m, |s.now|);
  }

  /** Every pass ends, in success or in failure. */
  lemma PassDecided(before: seq<Tuned>, m: nat, levels: nat)
    requires AllValid(before, levels) && m < levels
    ensures Fails(before, m, levels) <==> !exists after :: Passes(before, after, m, levels)
  {
    hide ReachedIn, Finished, Stuck, StartOf, Clampable, AnyAbove, HasPair, Inv;
    if m + 1 < levels && AnyAbove(before, m) {
      ValidHasPair(before, m, levels);
      if Clampable(before, m) {
        StartInv(before, m, levels);
        var start := StartOf(before, m);
        assert ReachedIn(start, start, 0, m, levels) by { ReachedAtOnce(start, m, levels); }
        RoomNow(before, start, m, levels);
        var last, k := Ends(before, start, start, 0, m, levels);
        if Finished(last, m, levels) {
          assert Passes(before, last.now, m, levels);
          PassesOrFails(before, last.now, last.now, m, levels);
        }
      }
    } else {
      assert Passes(before, before, m, levels);
    }
    if after :| Passes(before, after, m, levels) {
      PassesOrFails(before, after, after, m, levels);
    }
  }

  lemma ReachedAtOnce(start: State, m: nat, levels: nat)
    ensures ReachedIn(start, start, 0, m, levels)
  {
  }

  // ---- passes without a reduction -----------------------------------------------------------

  /** The pass has nothing to do: nothing to tune, or the starting deadlines leave room and pass the
      test at once. */
  predicate PassesAtOnce(before: seq<Tuned>, m: nat, levels: nat)
    requires m < levels && AllValid(before, levels)
  {
    m + 1 < levels && AnyAbove(before, m) ==>
      && Clampable(before, m) && HasPair(before, m)
      && AllValid(ClampAll(before, m), levels)
      && Tested(ClampAll(before, m), m, LMax(ClampAll(before, m), m, LENGTH_CAP, levels), levels)
  }

  /** The deadlines a pass without reductions leaves behind. */
  function Unreduced(before: seq<Tuned>, m: nat, levels: nat): seq<Tuned>
    requires m < levels && AllValid(before, levels)
  {
    if m + 1 < levels && AnyAbove(before, m) && HasPair(before, m) then ClampAll(before, m) else before
  }

  lemma AtOncePasses(before: seq<Tuned>, m: nat, levels: nat)
    requires m < levels && AllValid(before, levels) && PassesAtOnce(before, m, levels)
    ensures Passes(before, Unreduced(before, m, levels), m, levels)
  {
    hide Tested, LMax, AnyAbove, HasPair, ReachedIn, Clampable, ClampAll, Roomy, AboveAt, Inv, Shaped, AllValid;
    if m + 1 < levels && AnyAbove(before, m) {
      var start := StartOf(before, m);
      StartInv(before, m, levels);
      RoomNow(before, start, m, levels);
      ReachedAtOnce(start, m, levels);
      assert Finished(start, m, levels);
    }
  }

  // ---- what success means -------------------------------------------------------------------

  /** A pass that succeeds changes only deadlines of its mode; afterwards they are in order, leave room
      for the execution times, and every length up to the bound fits. */
  lemma PassMeans(before: seq<Tuned>, after: seq<Tuned>, m: nat, levels: nat)
    requires Passes(before, after, m, levels)
    ensures AllValid(after, levels) && OnlyModeChanged(before, after, m)
    ensures m + 1 < levels ==> AllReady(after, m, levels)
    ensures m + 1 < levels && AnyAbove(after, m) ==> Tested(after, m, LMax(after, m, LENGTH_CAP, levels), levels)
  {
    hide ReachedIn, StartOf, Clampable, Tested, LMax, ValidTuned;
    ValidParts(before, levels);
    if m + 1 < levels && AnyAbove(before, m) {
      var s, n :| ReachedIn(StartOf(before, m), s, n, m, levels) && Finished(s, m, levels) && after == s.now;
      ReachedKeeps(before, s, n, m, levels);
    } else if m + 1 < levels {
      forall i | 0 <= i < |before| ensures PairReady(before[i], m, levels) {
      }
    }
  }

  /** Among the candidates, no single reduction leaves less demand at `l` than the chosen one. */
  lemma GreedyIsBest(cs: seq<Tuned>, i: nat, j: nat, m: nat, l: int, levels: nat)
    requires m + 1 < levels && AllValid(cs, levels) && AllReady(cs, m, levels)
    requires i < |cs| && j < |cs| && 0 <= l
    requires cs[i].task.crit > m && cs[i].task.wcet[m] < cs[i].vd[m]
    requires cs[j].task.crit > m && cs[j].task.wcet[m] < cs[j].vd[m]
    requires Gain(cs[j], m, l, levels) <= Gain(cs[i], m, l, levels)
    ensures ValidTuned(Lower(cs[i], m), levels) && ValidTuned(Lower(cs[j], m), levels)
    ensures TotalDbf(cs[i := Lower(cs[i], m)], m, l, levels)
         <= TotalDbf(cs[j := Lower(cs[j], m)], m, l, levels)
  {
    hide Dbf, Gain, TotalDbf, Lower;
    GainIsRemovedDemand(cs, i, m, l, levels);
    GainIsRemovedDemand(cs, j, m, l, levels);
  }

  // ---- what failure means -------------------------------------------------------------------

  /** Another choice of the deadlines at mode `m`: none later than it was, in order with those at
      the next mode, and with room for the execution times. */
  predicate Alternative(before: seq<Tuned>, other: seq<Tuned>, m: nat, levels: nat) {
    && m + 1 < levels && |other| == |before| && AllValid(other, levels) && AllReady(other, m, levels)
    && forall i :: 0 <= i < |other| ==>
         && other[i].task == before[i].task && m + 1 < |before[i].vd|
         && other[i].vd[m + 1] == before[i].vd[m + 1]
         && other[i].vd[m] <= before[i].vd[m]
  }

  /** Of two deadlines a task may have at mode `m`, the earlier one never demands more. */
  lemma {:induction false} EarlierDemandsLess(c: Tuned, d: Tuned, m: nat, l: int, levels: nat)
    requires ValidTuned(c, levels) && ValidTuned(d, levels) && m + 1 < levels && c.task == d.task && c.task.crit > m
    requires c.vd[m + 1] == d.vd[m + 1] && c.vd[m] <= d.vd[m]
    requires PairReady(c, m, levels) && PairReady(d, m, levels)
    ensures Dbf(c, m, l, levels) <= Dbf(d, m, l, levels)
    decreases d.vd[m]
  {
    if l >= 0 && d.vd[m] > c.vd[m] {
      LowerShiftsDemand(d, m, l, levels);
      DbfMonotone(d, m, l - 1, l, levels);
      LowerLooks(d, m);
      hide Dbf;
      EarlierDemandsLess(c, Lower(d, m), m, l, levels);
    }
  }

  lemma LowerLooks(d: Tuned, m: nat)
    requires m + 1 < |d.vd|
    ensures Lower(d, m).task == d.task && |Lower(d, m).vd| == |d.vd|
    ensures Lower(d, m).vd[m] == d.vd[m] - 1 && Lower(d, m).vd[m + 1] == d.vd[m + 1]
  {
  }

  lemma {:induction false} EarlierTotalLess(now: seq<Tuned>, other: seq<Tuned>, m: nat, l: int, levels: nat)
    requires AllValid(now, levels) && AllValid(other, levels) && m + 1 < levels && |now| == |other|
    requires AllReady(now, m, levels) && AllReady(other, m, levels)
    requires forall i :: 0 <= i < |now| ==>
               && now[i].task == other[i].task && now[i].vd[m + 1] == other[i].vd[m + 1]
               && (now[i].task.crit > m ==> now[i].vd[m] <= other[i].vd[m])
    ensures TotalDbf(now, m, l, levels) <= TotalDbf(other, m, l, levels)
  {
    if now != [] {
      hide Dbf, ValidTuned;
      FirstDemandsLess(now, other, m, l, levels);
      EarlierTotalLess(now[1..], other[1..], m, l, levels);
    }
  }

  lemma FirstDemandsLess(now: seq<Tuned>, other: seq<Tuned>, m: nat, l: int, levels: nat)
    requires AllValid(now, levels) && AllValid(other, levels) && m + 1 < levels && |now| == |other| > 0
    requires AllReady(now, m, levels) && AllReady(other, m, levels)
    requires now[0].task == other[0].task && now[0].vd[m + 1] == other[0].vd[m + 1]
    requires now[0].task.crit > m ==> now[0].vd[m] <= other[0].vd[m]
    ensures Dbf(now[0], m, l, levels) <= Dbf(other[0], m, l, levels)
  {
    assert PairReady(now[0], m, levels) && PairReady(other[0], m, levels);
    if now[0].task.crit > m {
      EarlierDemandsLess(now[0], other[0], m, l, levels);
    }
  }

  /** In the steady state an earlier deadline never demands less. */
  lemma SteadyAntitone(c: Tuned, d: Tuned, l: int, levels: nat)
    requires ValidTuned(c, levels) && ValidTuned(d, levels) && 0 < levels && c.task == d.task && d.vd[0] <= c.vd[0]
    ensures Dbf(c, -1, l, levels) <= Dbf(d, -1, l, levels)
  {
    if 0 <= l {
      var p, w := c.task.period, c.task.wcet[0];
      var x, y := l - c.vd[0], l - d.vd[0];
      QuotientMonotone(p, x / p, x % p, y / p, y % p);
      MulWeak(w, x / p + 1, y / p + 1);
      assert w * (x / p + 1) == (x / p + 1) * w && w * (y / p + 1) == (y / p + 1) * w;
    }
  }

  lemma {:induction false} TotalSteadyAntitone(now: seq<Tuned>, other: seq<Tuned>, l: int, levels: nat)
    requires AllValid(now, levels) && AllValid(other, levels) && 0 < levels && |now| == |other|
    requires forall i :: 0 <= i < |now| ==> now[i].task == other[i].task && other[i].vd[0] <= now[i].vd[0]
    ensures TotalDbf(now, -1, l, levels) <= TotalDbf(other, -1, l, levels)
  {
    if now != [] {
      hide Dbf;
      SteadyAntitone(now[0], other[0], l, levels);
      TotalSteadyAntitone(now[1..], other[1..], l, levels);
    }
  }

  lemma NotClampable(before: seq<Tuned>, other: seq<Tuned>, m: nat, levels: nat)
    requires AllValid(before, levels) && Alternative(before, other, m, levels)
    ensures Clampable(before, m)
  {
    forall i | 0 <= i < |before| && before[i].task.crit > m
      ensures m + 1 < |before[i].vd| && m < |before[i].task.wcet| && before[i].task.wcet[m] <= StartVd(before[i], m)
    {
      assert ValidTuned(before[i], levels) && PairReady(other[i], m, levels);
    }
  }

  /** If the steady state gets stuck, no other choice of the deadlines lets it fit: all reductions have
      been given back, and later deadlines than the starting ones are not allowed. */
  lemma StuckSteadyIsFinal(before: seq<Tuned>, s: State, n: nat, other: seq<Tuned>, m: nat, levels: nat)
    requires AllValid(before, levels) && HasPair(before, m) && Alternative(before, other, m, levels)
    requires ReachedIn(StartOf(before, m), s, n, m, levels) && StuckSteady(s, m, levels)
    ensures m == 0 && s.now == ClampAll(before, m) && !Fits(other, -1, levels)
  {
    hide LMax, TotalDbf, ValidTuned, ReachedIn, StartOf, Inv, Alternative, ClampAll;
    NotClampable(before, other, m, levels);
    ReachedKeeps(before, s, n, m, levels);
    var l :| FirstBad(s.now, m, l, true, levels);
    AllGivenBack(before, s, m, levels);
    NotLater(before, other, m, levels);
    TotalSteadyAntitone(s.now, other, l, levels);
  }

  lemma AllGivenBack(before: seq<Tuned>, s: State, m: nat, levels: nat)
    requires Inv(before, s, m, levels) && s.mods == []
    ensures HasPair(before, m) && s.now == ClampAll(before, m)
  {
    hide CandidatesOk, Spent, AllReady, AboveAt, ClampThese, ValidTuned;
    forall i | 0 <= i < |s.now| ensures s.now[i] == ClampAll(before, m)[i] {
      assert multiset(s.mods)[i] == 0;
    }
  }

  lemma NotLater(before: seq<Tuned>, other: seq<Tuned>, m: nat, levels: nat)
    requires AllValid(before, levels) && HasPair(before, m) && Alternative(before, other, m, levels)
    ensures AllValid(other, levels) && |other| == |before|
    ensures forall i :: 0 <= i < |before| ==>
              && ClampAll(before, m)[i].task == other[i].task && m < |other[i].vd|
              && other[i].vd[m] <= ClampAll(before, m)[i].vd[m]
  {
    hide AboveAt, ClampThese, ValidTuned;
    forall i | 0 <= i < |before| && before[i].task.crit > m
      ensures m + 1 < |other[i].vd| && other[i].vd[m] <= other[i].vd[m + 1]
    {
      ReadyAt(other, i, m, levels);
    }
    ValidHasPair(other, m, levels);
  }

  /** The other deadlines are not earlier than those of the search for a task that has been given a
      reduction back. */
  predicate NoEarlier(s: State, other: seq<Tuned>, m: nat) {
    forall i :: 0 <= i < |s.now| && i < |other| && i in s.undone && m < |s.now[i].vd| && m < |other[i].vd| ==>
      s.now[i].vd[m] <= other[i].vd[m]
  }

  /** If the pair of modes gets stuck, another choice of the deadlines lets it fit only if it is earlier
      for a task that has been given a reduction back; without one, no other choice does. */
  lemma StuckPairIsFinal(before: seq<Tuned>, s: State, n: nat, other: seq<Tuned>, m: nat, levels: nat)
    requires AllValid(before, levels) && HasPair(before, m) && Alternative(before, other, m, levels)
    requires ReachedIn(StartOf(before, m), s, n, m, levels) && StuckPair(s, m, levels)
    requires NoEarlier(s, other, m)
    ensures !Fits(other, m, levels)
  {
    hide LMax, TotalDbf, ValidTuned, ReachedIn, StartOf, PairReady;
    NotClampable(before, other, m, levels);
    ReachedKeeps(before, s, n, m, levels);
    var l :| FirstBad(s.now, m, l, false, levels);
    NotEarlierThan(before, s, other, m, levels);
    EarlierTotalLess(s.now, other, m, l, levels);
  }

  lemma NotEarlierThan(before: seq<Tuned>, s: State, other: seq<Tuned>, m: nat, levels: nat)
    requires Inv(before, s, m, levels) && s.tc == []
    requires AllValid(before, levels) && Alternative(before, other, m, levels) && NoEarlier(s, other, m)
    ensures |s.now| == |other| && AllValid(other, levels)
    ensures forall i :: 0 <= i < |s.now| ==>
              && m + 1 < |s.now[i].vd| && m + 1 < |other[i].vd|
              && s.now[i].task == other[i].task && s.now[i].vd[m + 1] == other[i].vd[m + 1]
              && (s.now[i].task.crit > m ==> s.now[i].vd[m] <= other[i].vd[m])
  {
    hide ValidTuned, CandidatesOk, Accounted;
    ValidHasPair(other, m, levels);
    ValidHasPair(s.now, m, levels);
    forall i | 0 <= i < |s.now| && s.now[i].task.crit > m ensures s.now[i].vd[m] <= other[i].vd[m] {
      ReadyAt(other, i, m, levels);
      assert i in s.undone || Down(s.now[i], m);
    }
  }

  /** What a failed pass can have missed: only at level 0, and only choices that are earlier, for a task
      that was given a reduction back, than where the search got stuck. */
  lemma MissesOnlyEarlier(before: seq<Tuned>, other: seq<Tuned>, m: nat, levels: nat)
    requires Fails(before, m, levels) && Alternative(before, other, m, levels)
    requires Fits(other, m, levels) && (m == 0 ==> Fits(other, -1, levels))
    ensures m == 0 && exists s, n ::
              && ReachedIn(StartOf(before, m), s, n, m, levels) && StuckPair(s, m, levels)
              && !NoEarlier(s, other, m)
  {
    hide FirstBad, ReachedIn, StartOf, Inv, Fits, Alternative, StuckPair, NoEarlier;
    NotClampable(before, other, m, levels);
    var s, n :| ReachedIn(StartOf(before, m), s, n, m, levels) && Stuck(s, m, levels);
    ReachedKeeps(before, s, n, m, levels);
    if StuckSteady(s, m, levels) {
      StuckSteadyIsFinal(before, s, n, other, m, levels);
      assert false;
    } else {
      if NoEarlier(s, other, m) {
        StuckPairIsFinal(before, s, n, other, m, levels);
        assert false;
      }
      if m > 0 {
        NeverUndone(before, s, other, m, levels);
        assert false;
      }
    }
  }

  /** Above level 0 a failure is final: no other choice of the deadlines at this mode fits either. */
  lemma FailureIsFinal(before: seq<Tuned>, other: seq<Tuned>, m: nat, levels: nat)
    requires 0 < m && Fails(before, m, levels) && Alternative(before, other, m, levels)
    ensures !Fits(other, m, levels)
  {
    hide Fails, Fits;
    if Fits(other, m, levels) {
      MissesOnlyEarlier(before, other, m, levels);
    }
  }

  lemma NeverUndone(before: seq<Tuned>, s: State, other: seq<Tuned>, m: nat, levels: nat)
    requires Inv(before, s, m, levels) && m > 0
    ensures NoEarlier(s, other, m)
  {
  }
}
