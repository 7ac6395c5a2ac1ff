/** The criticality level shared by the cores of a processor: every core first brings its own level
    up to the shared one and only then may raise it; between ticks the timer takes in the levels that
    arrive by broadcast. Loads and stores of the shared level interleave freely. */
module CritLevel {

  datatype Pc = Start | Differs | Loaded(v: nat) | Synced | Raising(v: nat) | Done

  datatype Core = Core(local: nat, pc: Pc)

  /** `floor` records the shared level at the start of the tick, `sent` the broadcasts made since. */
  datatype Proc = Proc(max: nat, system: nat, cores: seq<Core>, floor: nat, sent: seq<nat>)

  datatype Event =
    | Check(c: nat)
    | Load(c: nat)
    | StoreSynced(c: nat)
    | Announce(c: nat, level: nat)
    | StoreRaised(c: nat)
    | Finish(c: nat)
    | Boundary(delivered: seq<nat>)

  ghost predicate Enabled(p: Proc, e: Event) {
    if e.Boundary? then forall c :: 0 <= c < |p.cores| ==> p.cores[c].pc == Done
    else
      e.c < |p.cores| &&
      var core := p.cores[e.c];
      match e
      case Check(_) => core.pc == Start
      case Load(_) => core.pc == Differs
      case StoreSynced(_) => core.pc.Loaded?
      case Announce(_, level) => core.pc == Synced && core.local <= level < p.max
      case StoreRaised(_) => core.pc.Raising?
      case Finish(_) => core.pc == Synced
  }

  /** What the timer makes of the levels it receives, one message at a time. */
  function Received(system: nat, delivered: seq<nat>, max: nat): nat
    decreases |delivered|
  {
    if delivered == [] then system
    else Received(if system < delivered[0] < max then delivered[0] else system, delivered[1..], max)
  }

  function Step(p: Proc, e: Event): Proc
    requires Enabled(p, e)
  {
    match e
    case Check(c) =>
      p.(cores := p.cores[c := p.cores[c].(pc := if p.cores[c].local == p.system then Synced else Differs)])
    case Load(c) => p.(cores := p.cores[c := p.cores[c].(pc := Loaded(p.system))])
    case StoreSynced(c) =>
      var v := p.cores[c].pc.v;
      p.(system := v, cores := p.cores[c := Core(v, Synced)])
    case Announce(c, level) =>
      p.(cores := p.cores[c := p.cores[c].(pc := Raising(level))], sent := p.sent + [level])
    case StoreRaised(c) =>
      var v := p.cores[c].pc.v;
      p.(system := v, cores := p.cores[c := Core(v, Done)])
    case Finish(c) => p.(cores := p.cores[c := p.cores[c].(pc := Done)])
    case Boundary(delivered) =>
      var level := Received(p.system, delivered, p.max);
      p.(system := level, floor := level, sent := [],
         cores := seq(|p.cores|, c requires 0 <= c < |p.cores| => p.cores[c].(pc := Start)))
  }

  // ---- the invariant ------------------------------------------------------------------------

  /** A level that can be around during the tick: the one it started with, or a broadcast one. */
  predicate Around(p: Proc, v: nat) {
    p.floor <= v < p.max && (v == p.floor || v in p.sent)
  }

  predicate CoreOk(p: Proc, core: Core) {
    match core.pc
    case Start => true
    case Differs => true
    case Loaded(v) => Around(p, v)
    case Synced => Around(p, core.local)
    case Raising(v) => Around(p, v)
    case Done => Around(p, core.local)
  }

  ghost predicate Inv(p: Proc) {
    && Around(p, p.system)
    && (forall v :: v in p.sent ==> p.floor <= v < p.max)
    && (forall c :: 0 <= c < |p.cores| ==> CoreOk(p, p.cores[c]))
  }

  lemma MoreSent(p: Proc, p': Proc, v: nat)
    requires Around(p, v) && p'.floor == p.floor && p'.max == p.max && forall x :: x in p.sent ==> x in p'.sent
    ensures Around(p', v)
  {
  }

  /** The timer's fold returns the maximum of the level and the valid messages. */
  lemma {:induction false} ReceivedIsMax(system: nat, delivered: seq<nat>, max: nat)
    requires system < max
    ensures var r := Received(system, delivered, max);
            && system <= r < max && (r == system || r in delivered)
            && forall m :: m in delivered && m < max ==> m <= r
    decreases |delivered|
  {
    if delivered != [] {
      assert delivered == [delivered[0]] + delivered[1..];
      ReceivedIsMax(if system < delivered[0] < max then delivered[0] else system, delivered[1..], max);
    }
  }

  lemma StepKeeps(p: Proc, e: Event)
    requires Inv(p) && Enabled(p, e)
    ensures Inv(Step(p, e))
  {
    hide Around;
    var p' := Step(p, e);
    if e.Boundary? {
      RangeOf(p, p.system);
      ReceivedIsMax(p.system, e.delivered, p.max);
      FloorAround(p');
    } else {
      assert CoreOk(p, p.cores[e.c]);
      forall x | Around(p, x) ensures Around(p', x) {
        MoreSent(p, p', x);
      }
      if e.Announce? {
        RangeOf(p, p.cores[e.c].local);
        SentAround(p', e.level);
      }
      forall c | 0 <= c < |p'.cores| ensures CoreOk(p', p'.cores[c]) {
        assert CoreOk(p, p.cores[c]);
      }
    }
  }

  lemma RangeOf(p: Proc, v: nat)
    requires Around(p, v)
    ensures p.floor <= v < p.max && (v == p.floor || v in p.sent)
  {
  }

  lemma FloorAround(p: Proc)
    requires p.floor < p.max
    ensures Around(p, p.floor)
  {
  }

  lemma SentAround(p: Proc, v: nat)
    requires v in p.sent && p.floor <= v < p.max
    ensures Around(p, v)
  {
  }

  // ---- runs ---------------------------------------------------------------------------------

  ghost predicate Legal(p: Proc, es: seq<Event>)
    decreases |es|
  {
    es == [] || (Enabled(p, es[0]) && Legal(Step(p, es[0]), es[1..]))
  }

  ghost function Run(p: Proc, es: seq<Event>): Proc
    requires Legal(p, es)
    decreases |es|
  {
    if es == [] then p else Run(Step(p, es[0]), es[1..])
  }

  lemma {:induction false} RunKeeps(p: Proc, es: seq<Event>)
    requires Inv(p) && Legal(p, es)
    ensures Inv(Run(p, es))
    ensures p.floor <= Run(p, es).floor && Run(p, es).max == p.max
    decreases |es|
  {
    hide Around, CoreOk, Received;
    if es != [] {
      StepKeeps(p, es[0]);
      RunKeeps(Step(p, es[0]), es[1..]);
      if es[0].Boundary? {
        RangeOf(p, p.system);
        ReceivedIsMax(p.system, es[0].delivered, p.max);
      }
    }
  }

  function Initial(cores: nat, max: nat): Proc {
    Proc(max, 0, seq(cores, _ => Core(0, Start)), 0, [])
  }

  lemma InitialInv(cores: nat, max: nat)
    requires max > 0
    ensures Inv(Initial(cores, max))
  {
  }

  /** In every run, whatever messages are lost, the shared level never falls below the level at the
      start of the tick, so the levels at tick boundaries never decrease. */
  lemma BoundaryNeverDecreases(cores: nat, max: nat, es: seq<Event>, fs: seq<Event>)
    requires max > 0 && Legal(Initial(cores, max), es) && Legal(Run(Initial(cores, max), es), fs)
    ensures var p, p' := Run(Initial(cores, max), es), Run(Run(Initial(cores, max), es), fs);
            p.floor <= p.system && p.floor <= p'.floor <= p'.system
  {
    hide Step, CoreOk, Initial, Enabled;
    InitialInv(cores, max);
    RunKeeps(Initial(cores, max), es);
    RunKeeps(Run(Initial(cores, max), es), fs);
  }

  /** If every broadcast of the tick comes back to its processor, the new level is exactly the
      maximum of the old level and all valid messages. */
  lemma LoopbackGivesMax(p: Proc, delivered: seq<nat>)
    requires Inv(p) && Enabled(p, Boundary(delivered)) && forall m :: m in p.sent ==> m in delivered
    ensures var level := Step(p, Boundary(delivered)).system;
            && p.floor <= level && (level == p.floor || level in delivered) && level < p.max
            && forall m :: m in delivered && m < p.max ==> m <= level
  {
    hide CoreOk;
    ReceivedIsMax(p.system, delivered, p.max);
  }

  /** Then also no core is ahead of the new level, and so no core's own level goes down when it
      synchronises in the next tick. */
  lemma LoopbackCoversLocals(p: Proc, delivered: seq<nat>, c: nat)
    requires Inv(p) && Enabled(p, Boundary(delivered)) && forall m :: m in p.sent ==> m in delivered
    requires c < |p.cores|
    ensures p.cores[c].local <= Step(p, Boundary(delivered)).floor
  {
    assert CoreOk(p, p.cores[c]);
    ReceivedIsMax(p.system, delivered, p.max);
  }

  ghost predicate AllReturned(p: Proc, e: Event) {
    e.Boundary? ==> forall m :: m in p.sent ==> m in e.delivered
  }

  /** Before it has synchronised, a core is not ahead of the level the tick started with. */
  predicate CoreNotAhead(core: Core, floor: nat) {
    match core.pc
    case Synced => true
    case Done => true
    case Raising(v) => core.local <= v
    case _ => core.local <= floor
  }

  ghost predicate NotAhead(p: Proc) {
    forall c :: 0 <= c < |p.cores| ==> CoreNotAhead(p.cores[c], p.floor)
  }

  /** A step after which all broadcasts have come back lowers no core's own level. */
  lemma StepKeepsLocal(p: Proc, e: Event, c: nat)
    requires Inv(p) && NotAhead(p) && Enabled(p, e) && AllReturned(p, e) && c < |p.cores|
    ensures NotAhead(Step(p, e)) && p.cores[c].local <= Step(p, e).cores[c].local
  {
    hide Received;
    if e.Boundary? {
      forall d | 0 <= d < |p.cores| ensures p.cores[d].local <= Step(p, e).floor {
        LoopbackCoversLocals(p, e.delivered, d);
      }
    } else {
      assert CoreOk(p, p.cores[e.c]);
    }
  }

  /** At every tick boundary of the run all that was sent comes back. */
  ghost predicate AllReturnedInRun(p: Proc, es: seq<Event>)
    requires Legal(p, es)
    decreases |es|
  {
    es == [] || (AllReturned(p, es[0]) && AllReturnedInRun(Step(p, es[0]), es[1..]))
  }

  lemma {:induction false} LocalGrows(p: Proc, es: seq<Event>, c: nat)
    requires Inv(p) && NotAhead(p) && Legal(p, es) && AllReturnedInRun(p, es) && c < |p.cores|
    ensures NotAhead(Run(p, es)) && |Run(p, es).cores| == |p.cores|
    ensures p.cores[c].local <= Run(p, es).cores[c].local
    decreases |es|
  {
    hide Inv, NotAhead, AllReturned;
    if es != [] {
      StepKeeps(p, es[0]);
      StepKeepsLocal(p, es[0], c);
      LocalGrows(Step(p, es[0]), es[1..], c);
    }
  }

  /** In every run in which all broadcasts come back, no core's own level ever goes down. */
  lemma LocalNeverDecreases(cores: nat, max: nat, es: seq<Event>, fs: seq<Event>, c: nat)
    requires max > 0 && c < cores && Legal(Initial(cores, max), es) && AllReturnedInRun(Initial(cores, max), es)
    requires Legal(Run(Initial(cores, max), es), fs) && AllReturnedInRun(Run(Initial(cores, max), es), fs)
    ensures var p, p' := Run(Initial(cores, max), es), Run(Run(Initial(cores, max), es), fs);
            |p.cores| == |p'.cores| == cores && p.cores[c].local <= p'.cores[c].local
  {
    hide Step, Enabled, AllReturned, Run, Legal, AllReturnedInRun;
    InitialInv(cores, max);
    RunKeeps(Initial(cores, max), es);
    LocalGrows(Initial(cores, max), es, c);
    LocalGrows(Run(Initial(cores, max), es), fs, c);
  }

  predicate NoBoundary(es: seq<Event>) {
    forall i :: 0 <= i < |es| ==> !es[i].Boundary?
  }

  /** Within one tick the events lower the core's own level. */
  ghost predicate FallsBy(p: Proc, es: seq<Event>, c: nat)
    requires c < |p.cores|
  {
    Legal(p, es) && NoBoundary(es) && c < |Run(p, es).cores| && Run(p, es).cores[c].local < p.cores[c].local
  }

  lemma {:induction false} StaysUp(p: Proc, es: seq<Event>, c: nat)
    requires Inv(p) && Legal(p, es) && NoBoundary(es) && c < |p.cores| && CoreNotAhead(p.cores[c], p.floor)
    ensures |Run(p, es).cores| == |p.cores| && p.cores[c].local <= Run(p, es).cores[c].local
    decreases |es|
  {
    hide Inv;
    if es != [] {
      StepKeeps(p, es[0]);
      StepStaysUp(p, es[0], c);
      StaysUp(Step(p, es[0]), es[1..], c);
    }
  }

  lemma StepStaysUp(p: Proc, e: Event, c: nat)
    requires Inv(p) && Enabled(p, e) && !e.Boundary? && c < |p.cores| && CoreNotAhead(p.cores[c], p.floor)
    ensures var p' := Step(p, e);
            && |p'.cores| == |p.cores| && p'.floor == p.floor && CoreNotAhead(p'.cores[c], p.floor)
            && p.cores[c].local <= p'.cores[c].local
  {
    assert CoreOk(p, p.cores[e.c]);
  }

  /** A core's own level can fall in the next tick exactly if at the boundary the shared level is below
      it and so is every valid level that has been received. */
  lemma LevelCanFallExactly(p: Proc, delivered: seq<nat>, c: nat)
    requires Inv(p) && Enabled(p, Boundary(delivered)) && c < |p.cores|
    ensures (exists es :: FallsBy(Step(p, Boundary(delivered)), es, c))
       <==> p.system < p.cores[c].local && forall m :: m in delivered && m < p.max ==> m < p.cores[c].local
  {
    hide Run, Legal, Inv, Received;
    var q := Step(p, Boundary(delivered));
    StepKeeps(p, Boundary(delivered));
    assert p.system < p.max by { SystemInRange(p); }
    ReceivedIsMax(p.system, delivered, p.max);
    if q.system < q.cores[c].local {
      var q1 := Step(q, Check(c));
      var q2 := Step(q1, Load(c));
      var q3 := Step(q2, StoreSynced(c));
      RunNone(q3);
      RunFirst(q2, StoreSynced(c), []);
      RunFirst(q1, Load(c), [StoreSynced(c)] + []);
      var es := [Check(c)] + ([Load(c)] + ([StoreSynced(c)] + []));
      RunFirst(q, Check(c), [Load(c)] + ([StoreSynced(c)] + []));
      assert NoBoundary(es) && Run(q, es) == q3;
      assert FallsBy(q, es, c);
    } else {
      forall es | Legal(q, es) && NoBoundary(es) ensures !FallsBy(q, es, c) {
        StaysUp(q, es, c);
      }
    }
  }

  lemma SystemInRange(p: Proc)
    requires Inv(p)
    ensures p.system < p.max
  {
  }

  lemma RunFirst(p: Proc, e: Event, es: seq<Event>)
    requires Enabled(p, e) && Legal(Step(p, e), es)
    ensures Legal(p, [e] + es) && Run(p, [e] + es) == Run(Step(p, e), es)
  {
    assert ([e] + es)[1..] == es;
  }

  /** Without the loopback this fails: a raise to 2 is overwritten by a slower raise to 1, and the
      core that was at 2 follows the shared level down. */
  lemma LostBroadcastLowersLocal()
    ensures exists es: seq<Event>, fs: seq<Event> ::
              && Legal(Initial(2, 4), es) && Legal(Run(Initial(2, 4), es), fs)
              && var p, p' := Run(Initial(2, 4), es), Run(Run(Initial(2, 4), es), fs);
                 |p.cores| == 2 && |p'.cores| == 2 && p'.cores[0].local < p.cores[0].local
  {
    hide Run, Legal;
    var p0 := Initial(2, 4);
    var p1 := Step(p0, Check(0));
    var p2 := Step(p1, Check(1));
    assert p2 == Proc(4, 0, [Core(0, Synced), Core(0, Synced)], 0, []);
    var p3 := Step(p2, Announce(0, 2));
    var p4 := Step(p3, StoreRaised(0));
    assert p4 == Proc(4, 2, [Core(2, Done), Core(0, Synced)], 0, [2]);
    var fs := LosingRun(p4);
    RunNone(p4);
    RunFirst(p3, StoreRaised(0), []);
    RunFirst(p2, Announce(0, 2), [StoreRaised(0)] + []);
    RunFirst(p1, Check(1), [Announce(0, 2)] + ([StoreRaised(0)] + []));
    RunFirst(p0, Check(0), [Check(1)] + ([Announce(0, 2)] + ([StoreRaised(0)] + [])));
    var es := [Check(0)] + ([Check(1)] + ([Announce(0, 2)] + ([StoreRaised(0)] + [])));
    assert Run(p0, es) == p4;
  }

  lemma RunNone(p: Proc)
    ensures Legal(p, []) && Run(p, []) == p
  {
  }

  lemma LosingRun(p4: Proc) returns (fs: seq<Event>)
    requires p4 == Proc(4, 2, [Core(2, Done), Core(0, Synced)], 0, [2])
    ensures Legal(p4, fs) && |Run(p4, fs).cores| == 2 && Run(p4, fs).cores[0].local == 1
  {
    hide Run, Legal;
    var p5 := Step(p4, Announce(1, 1));
    var p6 := Step(p5, StoreRaised(1));
    assert p6 == Proc(4, 1, [Core(2, Done), Core(1, Done)], 0, [2, 1]);
    var p7 := Step(p6, Boundary([]));
    assert p7 == Proc(4, 1, [Core(2, Start), Core(1, Start)], 1, []);
    var p8 := Step(p7, Check(0));
    var p9 := Step(p8, Load(0));
    var p10 := Step(p9, StoreSynced(0));
    RunNone(p10);
    RunFirst(p9, StoreSynced(0), []);
    RunFirst(p8, Load(0), [StoreSynced(0)] + []);
    RunFirst(p7, Check(0), [Load(0)] + ([StoreSynced(0)] + []));
    RunFirst(p6, Boundary([]), [Check(0)] + ([Load(0)] + ([StoreSynced(0)] + [])));
    var rest := [Boundary([])] + ([Check(0)] + ([Load(0)] + ([StoreSynced(0)] + [])));
    RunFirst(p5, StoreRaised(1), rest);
    RunFirst(p4, Announce(1, 1), [StoreRaised(1)] + rest);
    fs := [Announce(1, 1)] + ([StoreRaised(1)] + rest);
  }
}
