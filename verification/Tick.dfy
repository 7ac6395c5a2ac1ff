/** The tick protocol: on every processor the cores and the timer meet at two barriers a round, and
    the timers of all processors meet at a third. */
module Tick {
  import opened Barrier

  datatype Member = CoreThread(id: nat) | TimerThread

  datatype CorePc = InTick | WaitCompletion | Between | WaitSync

  datatype TimerPc =
    | BeforeCompletion | AtCompletion
    | Clearing | Receiving | Releasing | Advancing | Sending
    | BeforeSync | AtSync
    | BeforeGlobal | AtGlobal

  /** One processor. `incoming` is the queue of received completion messages, which the cores read
      inside their tick. */
  datatype Proc<M> = Proc(
    time: nat, incoming: seq<M>,
    cores: map<nat, CorePc>, timer: TimerPc,
    completion: Bar<Member>, sync: Bar<Member>)

  datatype Sys<M> = Sys(procs: seq<Proc<M>>, global: Bar<nat>)

  // ---- steps --------------------------------------------------------------------------------

  /** What a core may do next; inside its tick it may also work without touching these fields. */
  predicate CoreEnabled<M>(p: Proc<M>, c: nat) {
    c in p.cores &&
    match p.cores[c]
    case InTick => CanArrive(p.completion, CoreThread(c))
    case WaitCompletion => CanLeave(p.completion, CoreThread(c))
    case Between => CanArrive(p.sync, CoreThread(c))
    case WaitSync => CanLeave(p.sync, CoreThread(c))
  }

  function CoreStep<M>(p: Proc<M>, c: nat): Proc<M>
    requires CoreEnabled(p, c)
  {
    var m := CoreThread(c);
    match p.cores[c]
    case InTick =>
      var b := Arrive(p.completion, m);
      p.(completion := b, cores := p.cores[c := if b.place[m].Outside? then Between else WaitCompletion])
    case WaitCompletion =>
      p.(completion := Leave(p.completion, m), cores := p.cores[c := Between])
    case Between =>
      var b := Arrive(p.sync, m);
      p.(sync := b, cores := p.cores[c := if b.place[m].Outside? then InTick else WaitSync])
    case WaitSync =>
      p.(sync := Leave(p.sync, m), cores := p.cores[c := InTick])
  }

  predicate TimerEnabled<M>(p: Proc<M>, global: Bar<nat>, i: nat) {
    match p.timer
    case BeforeCompletion => CanArrive(p.completion, TimerThread)
    case AtCompletion => CanLeave(p.completion, TimerThread)
    case BeforeSync => CanArrive(p.sync, TimerThread)
    case AtSync => CanLeave(p.sync, TimerThread)
    case BeforeGlobal => CanArrive(global, i)
    case AtGlobal => CanLeave(global, i)
    case _ => true
  }

  /** The timer's next action; `received` is what the network delivers when it asks. */
  function TimerStep<M>(p: Proc<M>, global: Bar<nat>, i: nat, received: seq<M>): (Proc<M>, Bar<nat>)
    requires TimerEnabled(p, global, i)
  {
    match p.timer
    case BeforeCompletion =>
      var b := Arrive(p.completion, TimerThread);
      (p.(completion := b, timer := if b.place[TimerThread].Outside? then Clearing else AtCompletion), global)
    case AtCompletion => (p.(completion := Leave(p.completion, TimerThread), timer := Clearing), global)
    case Clearing => (p.(incoming := [], timer := Receiving), global)
    case Receiving => (p.(incoming := p.incoming + received, timer := Releasing), global)
    case Releasing => (p.(timer := Advancing), global)
    case Advancing => (p.(time := p.time + 1, timer := Sending), global)
    case Sending => (p.(timer := BeforeSync), global)
    case BeforeSync =>
      var b := Arrive(p.sync, TimerThread);
      (p.(sync := b, timer := if b.place[TimerThread].Outside? then BeforeGlobal else AtSync), global)
    case AtSync => (p.(sync := Leave(p.sync, TimerThread), timer := BeforeGlobal), global)
    case BeforeGlobal =>
      var b := Arrive(global, i);
      (p.(timer := if b.place[i].Outside? then BeforeCompletion else AtGlobal), b)
    case AtGlobal => (p.(timer := BeforeCompletion), Leave(global, i))
  }

  // ---- the invariant ------------------------------------------------------------------------

  /** Position of a core in the round, read off its two barriers. */
  predicate CoreOk<M>(p: Proc<M>, c: nat) {
    var m := CoreThread(c);
    && c in p.cores && m in p.completion.place && m in p.completion.results
    && m in p.sync.place && m in p.sync.results
    && var rc, rs := Rounds(p.completion, m), Rounds(p.sync, m);
    && (p.completion.place[m].Waiting? <==> p.cores[c] == WaitCompletion)
    && (p.sync.place[m].Waiting? <==> p.cores[c] == WaitSync)
    && rc == (if p.cores[c] == InTick || p.cores[c] == WaitCompletion then rs else rs + 1)
  }

  predicate Working(t: TimerPc) {
    t == Clearing || t == Receiving || t == Releasing || t == Advancing || t == Sending
  }

  /** The timer has advanced the time in the present round. */
  predicate Advanced(t: TimerPc) {
    t == Sending || t == BeforeSync || t == AtSync || t == BeforeGlobal || t == AtGlobal
  }

  /** Position of the timer in the round, read off its three barriers, and the time it keeps. */
  predicate TimerOk<M>(p: Proc<M>, global: Bar<nat>, i: nat) {
    var m := TimerThread;
    && m in p.completion.place && m in p.completion.results && m in p.sync.place && m in p.sync.results
    && i in global.place && i in global.results
    && var rc, rs, rg := Rounds(p.completion, m), Rounds(p.sync, m), Rounds(global, i);
    && (p.completion.place[m].Waiting? <==> p.timer == AtCompletion)
    && (p.sync.place[m].Waiting? <==> p.timer == AtSync)
    && (global.place[i].Waiting? <==> p.timer == AtGlobal)
    && rc == (if p.timer == BeforeCompletion || p.timer == AtCompletion then rg else rg + 1)
    && rs == (if p.timer == BeforeGlobal || p.timer == AtGlobal then rg + 1 else rg)
    && p.time == rg + (if Advanced(p.timer) then 1 else 0)
  }

  ghost predicate ProcInv<M>(p: Proc<M>, global: Bar<nat>, i: nat) {
    && Barrier.Inv(p.completion) && Barrier.Inv(p.sync)
    && (forall c :: c in p.cores ==> CoreOk(p, c))
    && TimerOk(p, global, i)
  }

  ghost predicate SysInv<M>(s: Sys<M>) {
    && Barrier.Inv(s.global)
    && (forall i :: 0 <= i < |s.procs| ==> ProcInv(s.procs[i], s.global, i))
  }

  // ---- the system ---------------------------------------------------------------------------

  datatype Event<M> =
    | CoreActs(proc: nat, core: nat)
    | TimerActs(proc: nat, received: seq<M>)

  predicate Enabled<M>(s: Sys<M>, e: Event<M>) {
    e.proc < |s.procs| &&
    match e
    case CoreActs(i, c) => CoreEnabled(s.procs[i], c)
    case TimerActs(i, _) => TimerEnabled(s.procs[i], s.global, i)
  }

  function Step<M>(s: Sys<M>, e: Event<M>): Sys<M>
    requires Enabled(s, e)
  {
    match e
    case CoreActs(i, c) => s.(procs := s.procs[i := CoreStep(s.procs[i], c)])
    case TimerActs(i, received) =>
      var r := TimerStep(s.procs[i], s.global, i, received);
      Sys(s.procs[i := r.0], r.1)
  }

  predicate Legal<M>(s: Sys<M>, es: seq<Event<M>>)
    decreases |es|
  {
    es == [] || (Enabled(s, es[0]) && Legal(Step(s, es[0]), es[1..]))
  }

  function Run<M>(s: Sys<M>, es: seq<Event<M>>): Sys<M>
    requires Legal(s, es)
    decreases |es|
  {
    if es == [] then s else Run(Step(s, es[0]), es[1..])
  }

  function Indices(n: nat): (r: set<nat>)
    ensures forall i :: i in r <==> 0 <= i < n
  {
    if n == 0 then {} else Indices(n - 1) + {n - 1}
  }

  function Members(cores: set<nat>): set<Member> {
    {TimerThread} + (set c | c in cores :: CoreThread(c))
  }

  function StartProc<M>(cores: set<nat>): Proc<M> {
    Proc(0, [], map c | c in cores :: InTick, BeforeCompletion,
         Barrier.Fresh(Members(cores)), Barrier.Fresh(Members(cores)))
  }

  function Start<M>(numProcs: nat, cores: set<nat>): Sys<M> {
    Sys(seq(numProcs, _ => StartProc(cores)), Barrier.Fresh(Indices(numProcs)))
  }

  /** A member of a new barrier is outside and has completed no round. */
  predicate FreshOk<T>(members: set<T>, m: T) {
    var b := Barrier.Fresh(members);
    m in b.place && m in b.results && b.place[m].Outside? && Rounds(b, m) == 0
  }

  lemma FreshMember<T>(members: set<T>, m: T)
    requires m in members
    ensures FreshOk(members, m)
  {
  }

  lemma StartProcInv<M>(cores: set<nat>, global: Bar<nat>, i: nat)
    requires i in global.place && i in global.results && global.place[i].Outside? && Rounds(global, i) == 0
    ensures ProcInv<M>(StartProc(cores), global, i)
  {
    hide Barrier.Inv, Barrier.Fresh, Rounds;
    var members := Members(cores);
    assert TimerThread in members;
    FreshInv(members);
    FreshMember(members, TimerThread);
    forall c | c in cores ensures FreshOk(members, CoreThread(c)) {
      FreshMember(members, CoreThread(c));
    }
  }

  lemma StartInv<M>(numProcs: nat, cores: set<nat>)
    requires numProcs > 0
    ensures SysInv<M>(Start(numProcs, cores))
  {
    hide Barrier.Inv, Barrier.Fresh, ProcInv, Rounds, StartProc;
    assert 0 in Indices(numProcs);
    FreshInv(Indices(numProcs));
    forall i: nat | i < numProcs ensures ProcInv<M>(StartProc(cores), Barrier.Fresh(Indices(numProcs)), i) {
      FreshMember<nat>(Indices(numProcs), i);
      StartProcInv<M>(cores, Barrier.Fresh(Indices(numProcs)), i);
    }
  }

  // ---- preservation -------------------------------------------------------------------------

  /** What a call does to the caller's own record. */
  lemma OwnMember<T>(b: Bar<T>, t: T)
    ensures CanArrive(b, t) ==>
              var b' := Arrive(b, t);
              && t in b'.place && t in b'.results
              && Rounds(b', t) == Rounds(b, t) + if b'.place[t].Outside? then 1 else 0
    ensures CanLeave(b, t) ==>
              var b' := Leave(b, t);
              && t in b'.place && t in b'.results && b'.place[t].Outside?
              && Rounds(b', t) == Rounds(b, t) + 1
  {
  }

  lemma OtherMembers<T>(b: Bar<T>, t: T, u: T)
    requires u != t && u in b.place && u in b.results
    ensures CanArrive(b, t) ==>
              var b' := Arrive(b, t);
              u in b'.place && u in b'.results && b'.place[u] == b.place[u] && b'.results[u] == b.results[u]
    ensures CanLeave(b, t) ==>
              var b' := Leave(b, t);
              u in b'.place && u in b'.results && b'.place[u] == b.place[u] && b'.results[u] == b.results[u]
  {
  }

  /** Every barrier call keeps the barrier's own invariant. */
  lemma BarrierKept<T>(b: Bar<T>, t: T)
    requires Barrier.Inv(b)
    ensures CanArrive(b, t) ==> Barrier.Inv(Arrive(b, t))
    ensures CanLeave(b, t) ==> Barrier.Inv(Leave(b, t))
  {
    if CanArrive(b, t) {
      ArriveInv(b, t);
    }
    if CanLeave(b, t) {
      LeaveInv(b, t);
    }
  }

  lemma CoreStepKeeps<M>(p: Proc<M>, global: Bar<nat>, i: nat, c: nat)
    requires ProcInv(p, global, i) && CoreEnabled(p, c)
    ensures ProcInv(CoreStep(p, c), global, i)
  {
    hide Barrier.Inv, Arrive, Leave;
    var p', m := CoreStep(p, c), CoreThread(c);
    assert CoreOk(p, c);
    BarrierKept(p.completion, m);
    BarrierKept(p.sync, m);
    OwnMember(p.completion, m);
    OwnMember(p.sync, m);
    OtherMembers(p.completion, m, TimerThread);
    OtherMembers(p.sync, m, TimerThread);
    forall d | d in p'.cores ensures CoreOk(p', d) {
      assert CoreOk(p, d);
      if d != c {
        OtherMembers(p.completion, m, CoreThread(d));
        OtherMembers(p.sync, m, CoreThread(d));
      }
    }
  }

  lemma TimerStepCores<M>(p: Proc<M>, global: Bar<nat>, i: nat, received: seq<M>, d: nat)
    requires CoreOk(p, d) && TimerEnabled(p, global, i)
    ensures CoreOk(TimerStep(p, global, i, received).0, d)
  {
    hide Arrive, Leave, TimerStep, TimerEnabled;
    var m, p' := CoreThread(d), TimerStep(p, global, i, received).0;
    OtherMembers(p.completion, TimerThread, m);
    OtherMembers(p.sync, TimerThread, m);
    TimerStepShape(p, global, i, received);
  }

  /** A timer step is at most one call on each barrier. */
  lemma TimerStepShape<M>(p: Proc<M>, global: Bar<nat>, i: nat, received: seq<M>)
    requires TimerEnabled(p, global, i)
    ensures var r := TimerStep(p, global, i, received);
            && r.0.cores == p.cores
            && (r.0.completion == p.completion
                || (CanArrive(p.completion, TimerThread) && r.0.completion == Arrive(p.completion, TimerThread))
                || (CanLeave(p.completion, TimerThread) && r.0.completion == Leave(p.completion, TimerThread)))
            && (r.0.sync == p.sync
                || (CanArrive(p.sync, TimerThread) && r.0.sync == Arrive(p.sync, TimerThread))
                || (CanLeave(p.sync, TimerThread) && r.0.sync == Leave(p.sync, TimerThread)))
  {
    hide Arrive, Leave, CanArrive, CanLeave;
  }

  lemma TimerMeets<M>(p: Proc<M>, global: Bar<nat>, i: nat, received: seq<M>)
    requires TimerOk(p, global, i) && TimerEnabled(p, global, i)
    requires p.timer == BeforeCompletion || p.timer == AtCompletion || p.timer == BeforeSync || p.timer == AtSync
    ensures var r := TimerStep(p, global, i, received); TimerOk(r.0, r.1, i)
  {
    hide Arrive, Leave, Rounds, CanArrive, CanLeave;
    OwnMember(p.completion, TimerThread);
    OwnMember(p.sync, TimerThread);
  }

  lemma TimerMeetsGlobal<M>(p: Proc<M>, global: Bar<nat>, i: nat, received: seq<M>)
    requires TimerOk(p, global, i) && TimerEnabled(p, global, i)
    requires p.timer == BeforeGlobal || p.timer == AtGlobal
    ensures var r := TimerStep(p, global, i, received); TimerOk(r.0, r.1, i)
  {
    hide Arrive, Leave, Rounds, CanArrive, CanLeave;
    OwnMember(global, i);
  }

  lemma TimerWorks<M>(p: Proc<M>, global: Bar<nat>, i: nat, received: seq<M>)
    requires TimerOk(p, global, i) && Working(p.timer)
    ensures var r := TimerStep(p, global, i, received); TimerOk(r.0, r.1, i)
  {
    hide Arrive, Leave, Rounds, CanArrive, CanLeave;
  }

  lemma TimerStepSelf<M>(p: Proc<M>, global: Bar<nat>, i: nat, received: seq<M>)
    requires TimerOk(p, global, i) && TimerEnabled(p, global, i)
    ensures var r := TimerStep(p, global, i, received); TimerOk(r.0, r.1, i)
  {
    hide TimerOk, TimerStep, TimerEnabled;
    if Working(p.timer) {
      TimerWorks(p, global, i, received);
    } else if p.timer == BeforeGlobal || p.timer == AtGlobal {
      TimerMeetsGlobal(p, global, i, received);
    } else {
      TimerMeets(p, global, i, received);
    }
  }

  lemma TimerStepBarriers<M>(p: Proc<M>, global: Bar<nat>, i: nat, received: seq<M>)
    requires Barrier.Inv(p.completion) && Barrier.Inv(p.sync) && Barrier.Inv(global)
    requires TimerEnabled(p, global, i)
    ensures var r := TimerStep(p, global, i, received);
            Barrier.Inv(r.0.completion) && Barrier.Inv(r.0.sync) && Barrier.Inv(r.1)
  {
    hide Barrier.Inv, Arrive, Leave;
    BarrierKept(p.completion, TimerThread);
    BarrierKept(p.sync, TimerThread);
    BarrierKept(global, i);
  }

  lemma TimerStepKeeps<M>(p: Proc<M>, global: Bar<nat>, i: nat, received: seq<M>)
    requires ProcInv(p, global, i) && Barrier.Inv(global) && TimerEnabled(p, global, i)
    ensures var r := TimerStep(p, global, i, received);
            ProcInv(r.0, r.1, i) && Barrier.Inv(r.1) && r.0.cores == p.cores
  {
    hide Barrier.Inv, Arrive, Leave, CoreOk, TimerOk;
    var r := TimerStep(p, global, i, received);
    TimerStepBarriers(p, global, i, received);
    TimerStepSelf(p, global, i, received);
    forall d | d in r.0.cores ensures CoreOk(r.0, d) {
      TimerStepCores(p, global, i, received, d);
    }
  }

  lemma OtherProc<M>(p: Proc<M>, global: Bar<nat>, g: Bar<nat>, i: nat, j: nat)
    requires ProcInv(p, global, j) && i != j
    requires g == global || (CanArrive(global, i) && g == Arrive(global, i))
             || (CanLeave(global, i) && g == Leave(global, i))
    ensures ProcInv(p, g, j)
  {
    hide Barrier.Inv, CoreOk;
    OtherMembers(global, i, j);
  }

  lemma StepKeeps<M>(s: Sys<M>, e: Event<M>)
    requires SysInv(s) && Enabled(s, e)
    ensures SysInv(Step(s, e))
  {
    hide Barrier.Inv, ProcInv;
    var s' := Step(s, e);
    match e
    case CoreActs(i, c) => CoreStepKeeps(s.procs[i], s.global, i, c);
    case TimerActs(i, received) =>
      TimerStepKeeps(s.procs[i], s.global, i, received);
      forall j | 0 <= j < |s.procs| && j != i ensures ProcInv(s'.procs[j], s'.global, j) {
        OtherProc(s.procs[j], s.global, s'.global, i, j);
      }
  }

  lemma {:induction false} RunKeeps<M>(s: Sys<M>, es: seq<Event<M>>)
    requires SysInv(s) && Legal(s, es)
    ensures SysInv(Run(s, es))
    decreases |es|
  {
    hide SysInv, Step;
    if es != [] {
      StepKeeps(s, es[0]);
      RunKeeps(Step(s, es[0]), es[1..]);
    }
  }

  // ---- what the protocol guarantees ---------------------------------------------------------

  /** In every run, the timer is not at work while a core of its processor is inside its tick. */
  lemma TimerExcluded<M>(numProcs: nat, cores: set<nat>, es: seq<Event<M>>, i: nat, c: nat)
    requires 0 < numProcs && Legal(Start(numProcs, cores), es)
    requires var s := Run(Start(numProcs, cores), es);
             i < |s.procs| && c in s.procs[i].cores && s.procs[i].cores[c] == InTick
    ensures !Working(Run(Start(numProcs, cores), es).procs[i].timer)
  {
    hide Start, Step;
    StartInv<M>(numProcs, cores);
    RunKeeps(Start(numProcs, cores), es);
    CoreExcludesTimer(Run(Start(numProcs, cores), es), i, c);
  }

  /** Where a member stands relative to the cycle of its barrier. */
  lemma PlaceRounds<T>(b: Bar<T>, t: T)
    requires Barrier.Inv(b) && t in b.place
    ensures t in b.results
    ensures b.place[t].Outside? ==> Rounds(b, t) == b.cycle
    ensures b.place[t].Waiting? ==> Rounds(b, t) <= b.cycle <= Rounds(b, t) + 1
  {
    assert MemberOk(b, t);
  }

  lemma ProcFacts<M>(p: Proc<M>, global: Bar<nat>, i: nat, c: nat)
    requires ProcInv(p, global, i) && c in p.cores && p.cores[c] == InTick
    ensures !Working(p.timer)
    ensures CoreThread(c) in p.sync.results && p.time == Rounds(p.sync, CoreThread(c))
  {
    hide Barrier.Inv, Rounds;
    assert CoreOk(p, c);
    PlaceRounds(p.completion, CoreThread(c));
    PlaceRounds(p.completion, TimerThread);
    PlaceRounds(p.sync, CoreThread(c));
    PlaceRounds(p.sync, TimerThread);
  }

  lemma CoreExcludesTimer<M>(s: Sys<M>, i: nat, c: nat)
    requires SysInv(s) && i < |s.procs| && c in s.procs[i].cores && s.procs[i].cores[c] == InTick
    ensures !Working(s.procs[i].timer)
  {
    hide ProcInv;
    ProcFacts(s.procs[i], s.global, i, c);
  }

  /** Whatever happens next in any run, a core inside its tick sees neither its processor's time
      nor its queue of received messages change. */
  lemma TickSeesStableState<M>(s: Sys<M>, e: Event<M>, i: nat, c: nat)
    requires SysInv(s) && Enabled(s, e)
    requires i < |s.procs| && c in s.procs[i].cores && s.procs[i].cores[c] == InTick
    ensures var s' := Step(s, e);
            s'.procs[i].time == s.procs[i].time && s'.procs[i].incoming == s.procs[i].incoming
  {
    hide SysInv, Arrive, Leave;
    CoreExcludesTimer(s, i, c);
  }

  /** In every run, the next step, whatever it is, changes neither the time nor the queue of received
      messages of a processor with a core inside its tick. */
  lemma TicksStableInRuns<M>(numProcs: nat, cores: set<nat>, es: seq<Event<M>>, e: Event<M>, i: nat, c: nat)
    requires 0 < numProcs && Legal(Start(numProcs, cores), es) && Enabled(Run(Start(numProcs, cores), es), e)
    requires var s := Run(Start(numProcs, cores), es);
             i < |s.procs| && c in s.procs[i].cores && s.procs[i].cores[c] == InTick
    ensures var s := Run(Start(numProcs, cores), es);
            var s' := Step(s, e);
            i < |s'.procs| && s'.procs[i].time == s.procs[i].time && s'.procs[i].incoming == s.procs[i].incoming
  {
    hide Start, SysInv, CoreEnabled, TimerEnabled, Arrive, Leave, CoreStep, TimerStep;
    StartInv<M>(numProcs, cores);
    RunKeeps(Start(numProcs, cores), es);
    TickSeesStableState(Run(Start(numProcs, cores), es), e, i, c);
  }

  /** In every run, a processor's time is the number of completed rounds of its timer, plus one
      once the timer has advanced it in the current round; and the times of any two processors
      differ by at most one. */
  lemma TimesClose<M>(numProcs: nat, cores: set<nat>, es: seq<Event<M>>, i: nat, j: nat)
    requires 0 < numProcs && Legal(Start(numProcs, cores), es)
    requires var s := Run(Start(numProcs, cores), es); i < |s.procs| && j < |s.procs|
    ensures var s := Run(Start(numProcs, cores), es);
            && i in s.global.results
            && s.procs[i].time == Rounds(s.global, i) + (if Advanced(s.procs[i].timer) then 1 else 0)
            && s.procs[i].time <= s.procs[j].time + 1
  {
    hide Start, Step, SysInv;
    StartInv<M>(numProcs, cores);
    RunKeeps(Start(numProcs, cores), es);
    var s := Run(Start(numProcs, cores), es);
    TimeOfRound(s, i);
    TimeOfRound(s, j);
  }

  lemma TimeOfRound<M>(s: Sys<M>, i: nat)
    requires SysInv(s) && i < |s.procs|
    ensures i in s.global.results
    ensures s.procs[i].time == Rounds(s.global, i) + (if Advanced(s.procs[i].timer) then 1 else 0)
    ensures s.global.cycle <= s.procs[i].time <= s.global.cycle + 1
  {
    hide Barrier.Inv, Rounds, CoreOk;
    assert ProcInv(s.procs[i], s.global, i);
    PlaceRounds(s.global, i);
  }

  /** While some core is inside its tick, the time is exactly the number of rounds completed. */
  lemma TimeInTick<M>(s: Sys<M>, i: nat, c: nat)
    requires SysInv(s) && i < |s.procs| && c in s.procs[i].cores && s.procs[i].cores[c] == InTick
    ensures CoreThread(c) in s.procs[i].sync.results
    ensures s.procs[i].time == Rounds(s.procs[i].sync, CoreThread(c))
  {
    hide ProcInv;
    ProcFacts(s.procs[i], s.global, i, c);
  }
}
