/** Tuning the virtual deadlines of one mode, on task objects that are updated in place. */
module TuneMode {
  import opened Numbers
  import opened Demand
  import opened DemandBound
  import opened Search

  /** A task instance placed on a core; its virtual deadlines change during tuning. */
  class Task {
    const spec: TaskSpec
    var vd: seq<int>

    constructor (spec: TaskSpec)
      ensures this.spec == spec
      ensures vd == seq(|spec.wcet|, _ => spec.deadline)
    {
      this.spec := spec;
      vd := seq(|spec.wcet|, _ => spec.deadline);
    }

    method ResetVirtualDeadlines()
      modifies this
      ensures vd == seq(|old(vd)|, _ => spec.deadline)
    {
      vd := seq(|vd|, _ => spec.deadline);
    }
  }

  /** The current parameters and deadlines of a list of tasks. */
  function Snap(ts: seq<Task>): (s: seq<Tuned>)
    reads ts
    ensures |s| == |ts|
    ensures forall i :: 0 <= i < |ts| ==> s[i] == Tuned(ts[i].spec, ts[i].vd)
  {
    if ts == [] then []
    else Snap(ts[..|ts| - 1]) + [Tuned(ts[|ts| - 1].spec, ts[|ts| - 1].vd)]
  }

  /** Tasks above a level, in order. */
  function Higher(ts: seq<Task>, m: int): (r: seq<Task>)
  {
    if ts == [] then []
    else
      var front := Higher(ts[..|ts| - 1], m);
      var last := ts[|ts| - 1];
      if last.spec.crit > m then front + [last] else front
  }

  // ---- tasks and their positions ------------------------------------------------------------

  /** The positions of the tasks `xs` in the list `ts`. */
  predicate Named(ts: seq<Task>, xs: seq<Task>, ks: seq<nat>) {
    |xs| == |ks| && forall j :: 0 <= j < |xs| ==> ks[j] < |ts| && ts[ks[j]] == xs[j]
  }

  lemma NamedLonger(ts: seq<Task>, k: nat, xs: seq<Task>, ks: seq<nat>)
    requires k <= |ts| && Named(ts[..k], xs, ks)
    ensures Named(ts, xs, ks)
  {
  }

  lemma NamedMore(ts: seq<Task>, xs: seq<Task>, ks: seq<nat>, k: nat)
    requires Named(ts, xs, ks) && k < |ts|
    ensures Named(ts, xs + [ts[k]], ks + [k])
  {
  }

  lemma NamedNone(ts: seq<Task>)
    ensures Named(ts, [], [])
  {
  }

  lemma {:induction false} HigherNamed(ts: seq<Task>, m: nat)
    ensures Named(ts, Higher(ts, m), AboveAt(Snap(ts), m))
  {
    hide Named, Distinct;
    if ts == [] {
      NamedNone(ts);
    } else {
      var k := |ts| - 1;
      HigherNamed(ts[..k], m);
      assert Snap(ts)[..k] == Snap(ts[..k]);
      NamedLonger(ts, k, Higher(ts[..k], m), AboveAt(Snap(ts[..k]), m));
      NamedMore(ts, Higher(ts[..k], m), AboveAt(Snap(ts[..k]), m), k);
    }
  }

  lemma NamedMembers(ts: seq<Task>, xs: seq<Task>, ks: seq<nat>, k: nat)
    requires Distinct(ts) && Named(ts, xs, ks) && k < |ts|
    ensures ts[k] in xs <==> k in ks
  {
    if ts[k] in xs {
      var j :| 0 <= j < |xs| && xs[j] == ts[k];
      assert ks[j] == k;
    }
    if k in ks {
      var j :| 0 <= j < |ks| && ks[j] == k;
      assert xs[j] == ts[k];
    }
  }

  lemma NamedFirst(ts: seq<Task>, xs: seq<Task>, ks: seq<nat>, k: nat)
    requires Distinct(ts) && Named(ts, xs, ks) && k < |ts| && xs != []
    ensures ks != [] && (xs[0] == ts[k] <==> ks[0] == k)
    ensures Named(ts, xs[1..], ks[1..])
  {
  }

  lemma NamedCons(ts: seq<Task>, xs: seq<Task>, ks: seq<nat>, us: seq<Task>, js: seq<nat>)
    requires Named(ts, xs, ks) && xs != [] && Named(ts, us, js)
    ensures ks != [] && Named(ts, [xs[0]] + us, [ks[0]] + js)
  {
  }

  lemma {:induction false} RemoveNamed(ts: seq<Task>, xs: seq<Task>, ks: seq<nat>, k: nat)
    requires Distinct(ts) && Named(ts, xs, ks) && k < |ts| && k in ks && ts[k] in xs
    ensures Named(ts, RemoveFirst(xs, ts[k]), RemoveFirst<nat>(ks, k))
  {
    hide Distinct, Named;
    NamedFirst(ts, xs, ks, k);
    if ks[0] != k {
      assert k in ks[1..] && ts[k] in xs[1..];
      RemoveNamed(ts, xs[1..], ks[1..], k);
      NamedCons(ts, xs, ks, RemoveFirst(xs[1..], ts[k]), RemoveFirst<nat>(ks[1..], k));
    }
  }

  /** The search stands at `s`. */
  predicate Represents(ts: seq<Task>, tc: seq<Task>, undo: seq<Task>, s: State)
    reads ts
  {
    Snap(ts) == s.now && Named(ts, tc, s.tc) && Named(ts, undo, s.mods)
  }

  // ---- one turn of the search ---------------------------------------------------------------

  /** The first interval length whose demand does not fit, checking the steady state first. */
  method FirstViolation(ts: seq<Task>, m: nat, lMax: int, levels: nat) returns (l: int, steady: bool)
    requires m + 1 < levels && AllValid(Snap(ts), levels) && lMax == LMax(Snap(ts), m, LENGTH_CAP, levels)
    ensures l <= lMax ==> FirstBad(Snap(ts), m, l, steady, levels)
    ensures l <= lMax && !steady ==> PairTooLarge(Snap(ts), m, l, levels)
    ensures l <= lMax && steady ==> SteadyTooLarge(Snap(ts), m, l, levels)
    ensures l > lMax ==> Tested(Snap(ts), m, lMax, levels)
    ensures l > lMax ==> forall k :: 0 <= k <= lMax ==>
              TotalDbf(Snap(ts), m, k, levels) <= k && (m == 0 ==> TotalDbf(Snap(ts), -1, k, levels) <= k)
  {
    hide TotalDbf, LMax;
    l, steady := 0, false;
    while l <= lMax
      invariant 0 <= l
      invariant Tested(Snap(ts), m, l - 1, levels)
      decreases lMax + 1 - l
    {
      if m == 0 {
        if TotalDbf(Snap(ts), -1, l, levels) > l {
          steady := true;
          return;
        }
      }
      if TotalDbf(Snap(ts), m, l, levels) > l {
        steady := false;
        return;
      }
      l := l + 1;
    }
  }

  /** The candidate whose deadline reduction removes the most demand at `l`; the first such one. */
  method ChooseTarget(tc: seq<Task>, m: nat, l: int, levels: nat) returns (k: nat)
    requires m + 1 < levels && tc != []
    requires AllValid(Snap(tc), levels) && AllReady(Snap(tc), m, levels)
    ensures k < |tc|
    ensures forall j :: 0 <= j < |tc| ==> Gain(Snap(tc)[j], m, l, levels) <= Gain(Snap(tc)[k], m, l, levels)
    ensures forall j :: 0 <= j < k ==> Gain(Snap(tc)[j], m, l, levels) < Gain(Snap(tc)[k], m, l, levels)
  {
    hide Dbf, Gain;
    var cs := Snap(tc);
    k := 0;
    var maxDelta := 0;
    GainNonNegative(cs[0], m, l, levels);
    for i := 0 to |tc|
      invariant k < |tc| && 0 <= maxDelta
      invariant maxDelta == 0 ==> k == 0
      invariant forall j :: 0 <= j < i ==> Gain(cs[j], m, l, levels) <= maxDelta
      invariant maxDelta > 0 ==> k < i && maxDelta == Gain(cs[k], m, l, levels)
      invariant maxDelta > 0 ==> forall j :: 0 <= j < k ==> Gain(cs[j], m, l, levels) < maxDelta
    {
      var delta := Gain(cs[i], m, l, levels);
      if delta > maxDelta {
        maxDelta := delta;
        k := i;
      }
    }
  }

  lemma GainNonNegative(c: Tuned, m: nat, l: int, levels: nat)
    requires ValidTuned(c, levels) && ValidPairIndex(m, levels) && PairReady(c, m, levels)
    ensures Gain(c, m, l, levels) >= 0
  {
    DbfMonotone(c, m, l - 1, l, levels);
  }

  /** Writes one deadline in place. */
  method SetDeadline(ts: seq<Task>, ghost k: nat, t: Task, m: nat, d: int)
    requires k < |ts| && ts[k] == t && Distinct(ts) && m < |t.vd|
    modifies t
    ensures t.vd == old(t.vd)[m := d]
    ensures Snap(ts) == old(Snap(ts))[k := WithDeadline(old(Snap(ts))[k], m, d)]
  {
    t.vd := t.vd[m := d];
  }

  lemma SubSnap(ts: seq<Task>, tc: seq<Task>, ks: seq<nat>, m: nat, levels: nat)
    requires m + 1 < levels && AllValid(Snap(ts), levels) && AllReady(Snap(ts), m, levels) && Named(ts, tc, ks)
    ensures AllValid(Snap(tc), levels) && AllReady(Snap(tc), m, levels)
    ensures forall j :: 0 <= j < |tc| ==> Snap(tc)[j] == Snap(ts)[ks[j]]
  {
    forall j | 0 <= j < |tc| ensures ValidTuned(Snap(tc)[j], levels) && PairReady(Snap(tc)[j], m, levels) {
      assert Snap(tc)[j] == Snap(ts)[ks[j]];
    }
  }

  lemma InvParts(before: seq<Tuned>, s: State, m: nat, levels: nat)
    requires Inv(before, s, m, levels)
    ensures Shaped(s, m, levels) && AllReady(s.now, m, levels) && OnlyModeChanged(before, s.now, m) && HasPair(s.now, m)
  {
  }

  lemma TargetIs(ts: seq<Task>, tc: seq<Task>, s: State, k: nat, m: nat, l: int, levels: nat)
    requires Shaped(s, m, levels) && Snap(ts) == s.now && Named(ts, tc, s.tc) && AllValid(Snap(tc), levels)
    requires k < |tc|
    requires forall j :: 0 <= j < |tc| ==> Gain(Snap(tc)[j], m, l, levels) <= Gain(Snap(tc)[k], m, l, levels)
    requires forall j :: 0 <= j < k ==> Gain(Snap(tc)[j], m, l, levels) < Gain(Snap(tc)[k], m, l, levels)
    ensures k < |s.tc| && IsTarget(s, k, m, l, levels) && s.tc[k] < |ts| && ts[s.tc[k]] == tc[k]
  {
    hide Gain, ValidTuned;
    assert forall j :: 0 <= j < |tc| ==> Snap(tc)[j] == s.now[s.tc[j]];
  }

  /** The reduction step at a length `l` whose demand does not fit: the first candidate of largest gain
      has its deadline lowered by one. */
  method LowerTarget(ts: seq<Task>, tc: seq<Task>, undo: seq<Task>, m: nat, l: int, levels: nat,
                     ghost before: seq<Tuned>, ghost s: State)
    returns (tc': seq<Task>, undo': seq<Task>, ghost s': State)
    requires Distinct(ts) && Represents(ts, tc, undo, s) && Inv(before, s, m, levels)
    requires tc != [] && FirstBad(s.now, m, l, false, levels)
    modifies ts
    ensures Represents(ts, tc', undo', s') && Lowers(s, s', m, levels)
    ensures exists k :: 0 <= k < |s.tc| && IsTarget(s, k, m, l, levels) && s' == Lowered(s, k, m, levels)
  {
    hide Inv, Shaped, Gain, FirstBad, IsTarget, RemoveFirst, AllValid, AllReady, Distinct, Snap, Lowers, Lowered, Named;
    InvParts(before, s, m, levels);
    SubSnap(ts, tc, s.tc, m, levels);
    ghost var was := Snap(ts);
    var k := ChooseTarget(tc, m, l, levels);
    TargetIs(ts, tc, s, k, m, l, levels);
    var target := tc[k];
    ghost var i := s.tc[k];
    LoweredBy(s, k, m, l, levels);
    LoweredParts(s, k, m, levels);
    assert was[i] == Tuned(target.spec, target.vd);
    SetDeadline(ts, i, target, m, target.vd[m] - 1);
    tc' := tc;
    assert target in tc && i in s.tc;
    if target.vd[m] == target.spec.wcet[m] {
      tc' := RemoveFirst(tc, target);
      RemoveNamed(ts, tc, s.tc, i);
    }
    undo' := undo + [target];
    NamedMore(ts, undo, s.mods, i);
    s' := Lowered(s, k, m, levels);
  }

  lemma LoweredBy(s: State, k: nat, m: nat, l: int, levels: nat)
    requires Shaped(s, m, levels) && FirstBad(s.now, m, l, false, levels) && k < |s.tc| && IsTarget(s, k, m, l, levels)
    ensures Lowers(s, Lowered(s, k, m, levels), m, levels)
  {
    hide FirstBad, IsTarget, Lowered;
  }

  lemma LoweredParts(s: State, k: nat, m: nat, levels: nat)
    requires Shaped(s, m, levels) && k < |s.tc|
    ensures var i, s' := s.tc[k], Lowered(s, k, m, levels);
            && i < |s.now| && m < |s.now[i].vd| && m < |s.now[i].task.wcet| && i in s.tc
            && s'.now == s.now[i := WithDeadline(s.now[i], m, s.now[i].vd[m] - 1)] && s'.mods == s.mods + [i]
            && s'.tc == if s.now[i].vd[m] - 1 == s.now[i].task.wcet[m] then RemoveFirst<nat>(s.tc, i) else s.tc
  {
    hide AllValid, Distinct;
    InRange(s, k, m, levels);
  }

  lemma InRange(s: State, k: nat, m: nat, levels: nat)
    requires Shaped(s, m, levels) && k < |s.tc|
    ensures var i := s.tc[k]; i < |s.now| && m < |s.now[i].vd| && m < |s.now[i].task.wcet| && i in s.tc
  {
  }

  /** The undo step: gives the last reduction back and drops its task from the candidates. */
  method UndoLast(ts: seq<Task>, tc: seq<Task>, undo: seq<Task>, m: nat, l: int, levels: nat,
                  ghost before: seq<Tuned>, ghost s: State)
    returns (tc': seq<Task>, undo': seq<Task>, ghost s': State)
    requires Distinct(ts) && Represents(ts, tc, undo, s) && Inv(before, s, m, levels)
    requires undo != [] && FirstBad(s.now, m, l, true, levels)
    modifies ts
    ensures Represents(ts, tc', undo', s') && GivesBack(s, s', m, levels)
  {
    hide Inv, Shaped, FirstBad, RemoveFirst, AllValid, AllReady, Distinct, Snap, GivesBack, GivenBack, Named;
    InvParts(before, s, m, levels);
    Here(ts, tc, undo, s);
    ghost var was := Snap(ts);
    ghost var i, ks := s.mods[|undo| - 1], if s.mods[|undo| - 1] in s.tc then s.tc else s.tc + [s.mods[|undo| - 1]];
    GivenBackParts(s, m, l, levels);
    LastNamed(ts, undo, s.mods);
    var t := undo[|undo| - 1];
    assert was[i] == Tuned(t.spec, t.vd);
    SetDeadline(ts, i, t, m, t.vd[m] + 1);
    NamedMembers(ts, tc, s.tc, i);
    var with := if t in tc then tc else tc + [t];
    NamedMore(ts, tc, s.tc, i);
    NamedMembers(ts, with, ks, i);
    tc' := RemoveFirst(with, t);
    RemoveNamed(ts, with, ks, i);
    undo' := undo[..|undo| - 1];
    s' := GivenBack(s, m, levels);
  }

  lemma LastNamed(ts: seq<Task>, xs: seq<Task>, ks: seq<nat>)
    requires Named(ts, xs, ks) && xs != []
    ensures ks != [] && |xs| == |ks| && ks[|ks| - 1] < |ts| && ts[ks[|ks| - 1]] == xs[|xs| - 1]
    ensures Named(ts, xs[..|xs| - 1], ks[..|ks| - 1])
  {
  }

  lemma GivenBackParts(s: State, m: nat, l: int, levels: nat)
    requires Shaped(s, m, levels) && s.mods != [] && FirstBad(s.now, m, l, true, levels)
    ensures GivesBack(s, GivenBack(s, m, levels), m, levels)
    ensures var i, s' := s.mods[|s.mods| - 1], GivenBack(s, m, levels);
            && i < |s.now| && m < |s.now[i].vd| && i in (if i in s.tc then s.tc else s.tc + [i])
            && s'.now == s.now[i := WithDeadline(s.now[i], m, s.now[i].vd[m] + 1)]
            && s'.mods == s.mods[..|s.mods| - 1]
            && s'.tc == RemoveFirst<nat>(if i in s.tc then s.tc else s.tc + [i], i)
  {
    hide FirstBad, Distinct;
  }

  // ---- where the search starts --------------------------------------------------------------

  /** Clamping stopped half-way: each deadline at mode `m` is as it was or clamped. */
  predicate PartlyClamped(before: seq<Tuned>, after: seq<Tuned>, m: nat) {
    && |after| == |before|
    && forall i :: 0 <= i < |before| ==>
         m + 1 < |before[i].vd| && m < |after[i].vd|
         && (after[i].vd[m] == before[i].vd[m] || after[i].vd[m] == StartVd(before[i], m))
  }

  lemma ClampedPartly(before: seq<Tuned>, done: seq<nat>, m: nat)
    requires HasPair(before, m)
    ensures PartlyClamped(before, ClampThese(before, done, m), m)
  {
  }

  lemma ClampNext(before: seq<Tuned>, ks: seq<nat>, n: nat, m: nat)
    requires HasPair(before, m) && n < |ks| && ks[n] < |before| && ks[n] !in ks[..n]
    ensures ClampThese(before, ks[..n], m)[ks[n]] == before[ks[n]]
    ensures ClampThese(before, ks[..n + 1], m) == ClampThese(before, ks[..n], m)[ks[n] := Clamp(before[ks[n]], m)]
  {
    assert ks[..n + 1] == ks[..n] + [ks[n]];
    assert forall i: nat :: i in ks[..n + 1] <==> i in ks[..n] || i == ks[n];
  }

  /** The candidates after the first `n` tasks above the level have been clamped: those of them that
      keep room, and all the others. */
  ghost function Sifted(cs: seq<Tuned>, ks: seq<nat>, n: nat, m: nat): seq<nat>
    requires n <= |ks| && forall j :: 0 <= j < |ks| ==> ks[j] < |cs|
  {
    Roomy(cs, ks[..n], m) + ks[n..]
  }

  lemma {:induction false} RemoveMiddle(a: seq<nat>, k: nat, b: seq<nat>)
    requires k !in a
    ensures k in a + ([k] + b) && RemoveFirst<nat>(a + ([k] + b), k) == a + b
  {
    var q := a + ([k] + b);
    assert q[|a|] == k;
    if a == [] {
      assert q == [k] + b && q[1..] == b;
    } else {
      var rest := a[1..] + ([k] + b);
      RemoveMiddle(a[1..], k, b);
      assert q == [a[0]] + rest && q[1..] == rest;
      RemoveLater(a[0], rest, k);
      assert [a[0]] + (a[1..] + b) == a + b;
    }
  }

  lemma RemoveLater(x: nat, q: seq<nat>, k: nat)
    requires x != k && k in q
    ensures RemoveFirst<nat>([x] + q, k) == [x] + RemoveFirst<nat>(q, k)
  {
    assert ([x] + q)[1..] == q;
  }

  lemma SiftNext(cs: seq<Tuned>, ks: seq<nat>, n: nat, m: nat)
    requires n < |ks| && Distinct(ks) && forall j :: 0 <= j < |ks| ==> ks[j] < |cs|
    ensures ks[n] in Sifted(cs, ks, n, m) && ks[n] !in ks[..n]
    ensures Sifted(cs, ks, n + 1, m) ==
            if HasRoom(cs[ks[n]], m) then Sifted(cs, ks, n, m) else RemoveFirst<nat>(Sifted(cs, ks, n, m), ks[n])
  {
    hide HasRoom, RemoveFirst;
    var front := Roomy(cs, ks[..n], m);
    assert ks[n..] == [ks[n]] + ks[n + 1..];
    assert ks[..n + 1][..n] == ks[..n];
    assert Sifted(cs, ks, n, m) == front + ([ks[n]] + ks[n + 1..]);
    assert ks[n] !in ks[..n];
    RemoveMiddle(front, ks[n], ks[n + 1..]);
  }

  lemma {:induction false} AboveSame(a: seq<Tuned>, b: seq<Tuned>, m: nat)
    requires |a| == |b| && forall i :: 0 <= i < |a| ==> a[i].task == b[i].task
    ensures AboveAt(a, m) == AboveAt(b, m)
  {
    if a != [] {
      AboveSame(a[..|a| - 1], b[..|b| - 1], m);
    }
  }

  /** The first `n` tasks above the level have been clamped, and fit; `tc` holds those of them that keep
      room, and all the others. */
  ghost predicate ClampedTo(ts: seq<Task>, tc: seq<Task>, before: seq<Tuned>, ks: seq<nat>, n: nat, m: nat)
    reads ts
    requires HasPair(before, m) && n <= |ks| && forall j :: 0 <= j < |ks| ==> ks[j] < |before|
  {
    && Snap(ts) == ClampThese(before, ks[..n], m)
    && Named(ts, tc, Sifted(ClampAll(before, m), ks, n, m))
    && forall j :: 0 <= j < n ==> before[ks[j]].task.wcet[m] <= StartVd(before[ks[j]], m)
  }

  /** Clamps the next task, or reports that it does not fit. */
  method ClampTask(ts: seq<Task>, t: Task, tc: seq<Task>, m: nat, levels: nat, ghost before: seq<Tuned>, ghost n: nat)
    returns (ok: bool, tc': seq<Task>)
    requires Distinct(ts) && HasPair(before, m) && n < |AboveAt(before, m)| && AboveAt(before, m)[n] < |ts|
    requires ts[AboveAt(before, m)[n]] == t && ClampedTo(ts, tc, before, AboveAt(before, m), n, m)
    modifies t
    ensures ok ==> ClampedTo(ts, tc', before, AboveAt(before, m), n + 1, m)
    ensures !ok ==> ClampedTo(ts, tc', before, AboveAt(before, m), n, m) && !Clampable(before, m)
  {
    hide AboveAt, Roomy, ClampThese, ClampAll, RemoveFirst, Sifted, HasRoom, Distinct, Snap, Clampable;
    ghost var ks := AboveAt(before, m);
    ghost var k, sifted := ks[n], Sifted(ClampAll(before, m), ks, n, m);
    SiftNext(ClampAll(before, m), ks, n, m);
    ClampNext(before, ks, n, m);
    RoomOfClamped(before, k, m);
    assert Snap(ts)[k] == before[k];
    tc' := tc;
    var d := Min(t.vd[m], t.vd[m + 1]);
    if d < t.spec.wcet[m] {
      return false, tc;
    }
    SetDeadline(ts, k, t, m, d);
    if d == t.spec.wcet[m] {
      NamedMembers(ts, tc, sifted, k);
      RemoveNamed(ts, tc, sifted, k);
      tc' := RemoveFirst(tc, t);
    }
    return true, tc';
  }

  /** Clamps the deadlines at mode `m` to those at the next mode; stops at a task whose deadline
      is below its execution time. Returns the tasks that keep room for tuning. */
  method ClampDeadlines(ts: seq<Task>, m: nat, levels: nat) returns (ok: bool, tc: seq<Task>)
    requires m + 1 < levels && Distinct(ts) && AllValid(Snap(ts), levels)
    modifies ts
    ensures AllValid(Snap(ts), levels) && OnlyModeChanged(old(Snap(ts)), Snap(ts), m)
    ensures ok <==> Clampable(old(Snap(ts)), m)
    ensures HasPair(old(Snap(ts)), m)
    ensures ok ==> Represents(ts, tc, [], StartOf(old(Snap(ts)), m))
    ensures !ok ==> PartlyClamped(old(Snap(ts)), Snap(ts), m)
  {
    hide *;
    ghost var before := Snap(ts);
    ValidHasPair(before, m, levels);
    ghost var ks := AboveAt(before, m);
    var initial := Higher(ts, m);
    tc := initial;
    ok := true;
    NoneClamped(ts, before, m, levels);
    for n := 0 to |initial|
      invariant ClampedTo(ts, tc, before, ks, n, m)
    {
      ok, tc := ClampTask(ts, initial[n], tc, m, levels, before, n);
      if !ok {
        SomeClamped(ts, tc, before, n, m, levels);
        return;
      }
    }
    AllClamped(ts, tc, before, m, levels);
    ok := true;
  }

  lemma RoomOfClamped(before: seq<Tuned>, k: nat, m: nat)
    requires HasPair(before, m) && k < |before| && before[k].task.crit > m
    ensures HasRoom(ClampAll(before, m)[k], m) <==> before[k].task.wcet[m] < StartVd(before[k], m)
    ensures !Clampable(before, m) <== StartVd(before[k], m) < before[k].task.wcet[m]
  {
  }

  lemma NoneClamped(ts: seq<Task>, before: seq<Tuned>, m: nat, levels: nat)
    requires AllValid(before, levels) && m + 1 < levels && HasPair(before, m) && Snap(ts) == before
    ensures ClampedTo(ts, Higher(ts, m), before, AboveAt(before, m), 0, m)
    ensures |Higher(ts, m)| == |AboveAt(before, m)|
    ensures forall j :: 0 <= j < |Higher(ts, m)| ==>
              AboveAt(before, m)[j] < |ts| && ts[AboveAt(before, m)[j]] == Higher(ts, m)[j] && Higher(ts, m)[j] in ts
  {
    hide AboveAt, Higher, Snap;
    var ks := AboveAt(before, m);
    HigherNamed(ts, m);
    assert ks[..0] == [] && ks[0..] == ks;
    assert Roomy(ClampAll(before, m), [], m) == [];
    assert [] + ks == ks;
  }

  lemma SomeClamped(ts: seq<Task>, tc: seq<Task>, before: seq<Tuned>, n: nat, m: nat, levels: nat)
    requires AllValid(before, levels) && m + 1 < levels && HasPair(before, m) && n <= |AboveAt(before, m)|
    requires ClampedTo(ts, tc, before, AboveAt(before, m), n, m)
    ensures AllValid(Snap(ts), levels) && OnlyModeChanged(before, Snap(ts), m) && PartlyClamped(before, Snap(ts), m)
  {
    hide ClampThese, AboveAt, ValidTuned;
    var ks := AboveAt(before, m);
    ClampValid(before, ks[..n], m, levels);
    ClampedPartly(before, ks[..n], m);
  }

  lemma AllClamped(ts: seq<Task>, tc: seq<Task>, before: seq<Tuned>, m: nat, levels: nat)
    requires AllValid(before, levels) && m + 1 < levels && HasPair(before, m)
    requires ClampedTo(ts, tc, before, AboveAt(before, m), |AboveAt(before, m)|, m)
    ensures Clampable(before, m) && Represents(ts, tc, [], StartOf(before, m))
    ensures AllValid(Snap(ts), levels) && OnlyModeChanged(before, Snap(ts), m)
  {
    hide ClampThese, AboveAt, ValidTuned, Snap;
    var ks := AboveAt(before, m);
    assert ks[..|ks|] == ks && ks[|ks|..] == [];
    ClampValid(before, ks, m, levels);
    AboveSame(before, ClampAll(before, m), m);
    assert Roomy(ClampAll(before, m), ks, m) + [] == Roomy(ClampAll(before, m), ks, m);
    forall i | 0 <= i < |before| && before[i].task.crit > m
      ensures m + 1 < |before[i].vd| && m < |before[i].task.wcet| && before[i].task.wcet[m] <= StartVd(before[i], m)
    {
      assert i in ks;
    }
  }

  // ---- the tuning pass ----------------------------------------------------------------------

  lemma HigherIsAbove(ts: seq<Task>, m: nat)
    ensures Higher(ts, m) == [] <==> !AnyAbove(Snap(ts), m)
  {
    HigherNamed(ts, m);
    var ks := AboveAt(Snap(ts), m);
    if ks != [] {
      assert Snap(ts)[ks[0]].task.crit > m;
    }
    if AnyAbove(Snap(ts), m) {
      var i :| 0 <= i < |ts| && Snap(ts)[i].task.crit > m;
      assert i in ks;
    }
  }

  lemma PassTrivially(cs: seq<Tuned>, m: nat, levels: nat)
    requires m < levels && AllValid(cs, levels) && (m + 1 == levels || !AnyAbove(cs, m))
    ensures Passes(cs, cs, m, levels) && OnlyModeChanged(cs, cs, m)
  {
  }

  lemma PassFound(before: seq<Tuned>, s: State, n: nat, m: nat, levels: nat)
    requires AllValid(before, levels) && m + 1 < levels && AnyAbove(before, m) && Clampable(before, m)
    requires HasPair(before, m)
    requires ReachedIn(StartOf(before, m), s, n, m, levels)
    ensures Finished(s, m, levels) ==> Passes(before, s.now, m, levels)
    ensures Stuck(s, m, levels) ==> Fails(before, m, levels)
  {
    hide ReachedIn, StartOf, Clampable, Finished, Stuck;
  }

  lemma PassUnclamped(before: seq<Tuned>, m: nat, levels: nat)
    requires AllValid(before, levels) && m + 1 < levels && AnyAbove(before, m) && !Clampable(before, m)
    requires HasPair(before, m)
    ensures Fails(before, m, levels)
  {
  }

  lemma ReachedNext(start: State, s: State, n: nat, s': State, m: nat, levels: nat)
    requires ReachedIn(start, s, n, m, levels) && Moves(s, s', m, levels)
    ensures ReachedIn(start, s', n + 1, m, levels)
  {
    hide Moves;
  }

  lemma StuckNow(s: State, l: int, steady: bool, m: nat, levels: nat)
    requires Shaped(s, m, levels) && FirstBad(s.now, m, l, steady, levels)
    requires if steady then s.mods == [] else s.tc == []
    ensures Stuck(s, m, levels)
  {
    hide FirstBad;
  }

  lemma SteadyLevel(now: seq<Tuned>, m: nat, l: int, levels: nat)
    requires AllValid(now, levels) && m + 1 < levels && FirstBad(now, m, l, true, levels)
    ensures m == 0
  {
    hide LMax, Tested;
  }

  /** One tuning pass over the tasks of a core. It takes the course of the search, whose last state it
      returns with the number of steps, and succeeds exactly if that does not fail. */
  method Tune(ts: seq<Task>, m: nat, levels: nat) returns (ok: bool, ghost last: State, ghost steps: nat)
    requires m < levels && Distinct(ts) && AllValid(Snap(ts), levels)
    modifies ts
    ensures AllValid(Snap(ts), levels) && OnlyModeChanged(old(Snap(ts)), Snap(ts), m)
    ensures ok <==> !Fails(old(Snap(ts)), m, levels)
    ensures ok ==> Passes(old(Snap(ts)), Snap(ts), m, levels)
    ensures m + 1 < levels && AnyAbove(old(Snap(ts)), m) ==>
              && HasPair(old(Snap(ts)), m)
              && if Clampable(old(Snap(ts)), m) then
                   && ReachedIn(StartOf(old(Snap(ts)), m), last, steps, m, levels) && Snap(ts) == last.now
                   && Inv(old(Snap(ts)), last, m, levels) && Ended(last, m, levels)
                 else PartlyClamped(old(Snap(ts)), Snap(ts), m)
  {
    hide *;
    ghost var before := Snap(ts);
    last, steps := State(before, [], [], {}), 0;
    HigherIsAbove(ts, m);
    if m == levels - 1 {
      PassTrivially(before, m, levels);
      PassesOrFails(before, before, before, m, levels);
      return true, last, steps;
    }
    if Higher(ts, m) == [] {
      PassTrivially(before, m, levels);
      PassesOrFails(before, before, before, m, levels);
      return true, last, steps;
    }
    var tc: seq<Task>;
    ok, tc := ClampDeadlines(ts, m, levels);
    if !ok {
      PassUnclamped(before, m, levels);
      return;
    }
    var undo: seq<Task> := [];
    var changed := true;
    ghost var start := StartOf(before, m);
    last := start;
    StartInv(before, m, levels);
    ReachedAtOnce(start, m, levels);
    RoomNow(before, last, m, levels);
    while changed
      invariant Represents(ts, tc, undo, last) && Inv(before, last, m, levels) && HasPair(last.now, m)
      invariant ReachedIn(start, last, steps, m, levels)
      invariant RoomLeft(last, m) >= 0
      invariant !changed ==> Finished(last, m, levels)
      decreases RoomLeft(last, m), |undo|, changed
    {
      changed := false;
      Here(ts, tc, undo, last);
      InvParts(before, last, m, levels);
      ShapedNow(last, m, levels);
      var lMax := LMax(Snap(ts), m, LENGTH_CAP, levels);
      var l, steady := FirstViolation(ts, m, lMax, levels);
      if l <= lMax {
        ghost var s' := last;
        if steady {
          if undo == [] {
            StuckNow(last, l, steady, m, levels);
            PassFound(before, last, steps, m, levels);
            EndedNow(last, m, levels);
            return false, last, steps;
          }
          SteadyLevel(last.now, m, l, levels);
          tc, undo, s' := UndoLast(ts, tc, undo, m, l, levels, before, last);
          MovesNow(last, s', m, levels);
        } else {
          if tc == [] {
            StuckNow(last, l, steady, m, levels);
            PassFound(before, last, steps, m, levels);
            EndedNow(last, m, levels);
            return false, last, steps;
          }
          tc, undo, s' := LowerTarget(ts, tc, undo, m, l, levels, before, last);
          MovesNow(last, s', m, levels);
        }
        MovesKeeps(before, last, s', m, levels);
        ReachedNext(start, last, steps, s', m, levels);
        Here(ts, tc, undo, s');
        last, steps := s', steps + 1;
        RoomNow(before, last, m, levels);
        changed := true;
      } else {
        FinishedNow(last, m, levels);
      }
    }
    Here(ts, tc, undo, last);
    InvParts(before, last, m, levels);
    ShapedNow(last, m, levels);
    PassFound(before, last, steps, m, levels);
    PassesOrFails(before, last.now, last.now, m, levels);
    EndedNow(last, m, levels);
    return true, last, steps;
  }

  lemma Here(ts: seq<Task>, tc: seq<Task>, undo: seq<Task>, s: State)
    requires Represents(ts, tc, undo, s)
    ensures Snap(ts) == s.now && |tc| == |s.tc| && |undo| == |s.mods|
  {
  }

  lemma ShapedNow(s: State, m: nat, levels: nat)
    requires Shaped(s, m, levels)
    ensures AllValid(s.now, levels)
  {
  }

  lemma MovesNow(s: State, s': State, m: nat, levels: nat)
    ensures Lowers(s, s', m, levels) ==> Moves(s, s', m, levels)
    ensures GivesBack(s, s', m, levels) ==> Moves(s, s', m, levels)
  {
  }

  lemma FinishedNow(s: State, m: nat, levels: nat)
    requires Shaped(s, m, levels) && Tested(s.now, m, LMax(s.now, m, LENGTH_CAP, levels), levels)
    ensures Finished(s, m, levels)
  {
  }

  lemma EndedNow(s: State, m: nat, levels: nat)
    ensures Finished(s, m, levels) || Stuck(s, m, levels) ==> Ended(s, m, levels)
  {
  }
}
