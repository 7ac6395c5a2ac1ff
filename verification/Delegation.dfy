/** Delegation of future arrivals between the cores of one processor, together with the sleep
    intervals: which core releases the job of each task period, and that none is lost. */
module Delegation {
  import opened Common
  import opened Sorted
  import Numbers

  const LOOKAHEAD: nat := 100
  const CAPACITY: nat := 200
  const SLEEP_THRESHOLD: nat := 6

  datatype TaskInfo = TaskInfo(period: nat, crit: nat)

  /** The tasks allocated to each core, by task id. */
  type Config = seq<map<nat, TaskInfo>>

  /** The job of task `task`, allocated to core `home`, that arrives at tick `arrival`. */
  datatype Key = Key(home: nat, task: nat, arrival: nat)

  /** A core's note that it has offered the job of `task` at `arrival` to another core. */
  datatype Rec = Rec(task: nat, arrival: nat, owned: bool)

  function RecArrival(r: Rec): nat { r.arrival }

  function KeyArrival(k: Key): nat { k.arrival }

  datatype Sleep = Awake | Until(tick: nat) | Forever

  /** Where a core is in its tick: taking pending jobs (at position `at`), releasing the jobs of its
      own tasks (those in `todo` are left), reading acknowledgements, offering future jobs, serving
      requests, choosing whether to sleep. */
  datatype Pc = Start | Pending(at: nat) | Home(todo: set<nat>) | Drain | Offers | Serve | Rest | Done

  /** The first `oldAcks` acknowledgements and `oldRequests` requests were sent in earlier ticks; later
      ones may still be in the making. `chosen` is the level at which the present sleep was chosen and
      `top` the highest such level so far. Two records of what happened: `window`, the delegations
      noted since the acknowledgements were last read, and `lost`, the arrivals slept through with
      nobody having taken them over. */
  datatype Core = Core(
    pc: Pc, level: nat, sleep: Sleep, chosen: nat, top: nat,
    records: seq<Rec>, pending: seq<Key>, requests: seq<Key>, oldRequests: nat, acks: seq<Key>, oldAcks: nat,
    window: set<Key>, lost: set<Key>)

  /** `arrived` records every job released so far, at home or from a pending queue. */
  datatype Sys = Sys(now: nat, cores: seq<Core>, arrived: set<Key>)

  // ---- what the scans compute ---------------------------------------------------------------

  /** The scan a task's arrival makes over the delegation records: stale ones met on the way are
      dropped, and an owned one for the task ends the scan. */
  function Scan(records: seq<Rec>, task: nat, now: nat): (seq<Rec>, bool) {
    if records == [] then ([], false)
    else if records[0].arrival < now then Scan(records[1..], task, now)
    else if records[0].task == task && records[0].owned then (records, true)
    else
      var r := Scan(records[1..], task, now);
      ([records[0]] + r.0, r.1)
  }

  /** Whether the scan before an offer finds the record; it stops at the first later arrival. */
  predicate Recorded(records: seq<Rec>, task: nat, arrival: nat) {
    records != [] &&
    if records[0].task == task && records[0].arrival == arrival then true
    else records[0].arrival <= arrival && Recorded(records[1..], task, arrival)
  }

  /** An acknowledgement marks the first record it matches. */
  function MarkOwned(records: seq<Rec>, task: nat, arrival: nat): seq<Rec> {
    if records == [] then []
    else if records[0].task == task && records[0].arrival == arrival then [records[0].(owned := true)] + records[1..]
    else [records[0]] + MarkOwned(records[1..], task, arrival)
  }

  /** The next arrival the core itself has to be awake for: each owned record moves it on. */
  function NextFor(records: seq<Rec>, task: nat, period: nat, next: nat): nat {
    if records == [] then next
    else if records[0].arrival == next && records[0].task == task && records[0].owned
    then NextFor(records[1..], task, period, next + period)
    else NextFor(records[1..], task, period, next)
  }

  function NextMultiple(now: nat, period: nat): nat
    requires period > 0
  {
    (now / period + 1) * period
  }

  predicate Eligible(info: TaskInfo, level: nat) {
    info.period > 0 && info.crit >= level
  }

  function NextArrival(core: Core, task: nat, info: TaskInfo, now: nat): nat
    requires info.period > 0
  {
    NextFor(core.records, task, info.period, now + (info.period - now % info.period))
  }

  /** The sleep intervals a core may choose: not past a pending job, nor past an arrival of its own
      that it still has to handle; without end only if there is neither. */
  ghost predicate SleepAllowed(tasks: map<nat, TaskInfo>, core: Core, now: nat, sleep: Sleep) {
    match sleep
    case Awake => true
    case Until(t) =>
      && now + SLEEP_THRESHOLD <= t
      && (forall k :: k in core.pending && now < k.arrival ==> t <= k.arrival)
      && (forall i :: i in tasks && Eligible(tasks[i], core.level) ==> t <= NextArrival(core, i, tasks[i], now))
    case Forever =>
      && (forall k :: k in core.pending ==> k.arrival <= now)
      && (forall i :: i in tasks ==> !Eligible(tasks[i], core.level))
  }

  // ---- the steps ----------------------------------------------------------------------------

  datatype Event =
    | Begin(c: nat, newLevel: nat)
    | PendingEntry(c: nat)
    | HomeTask(c: nat, task: nat)
    | HomeDone(c: nat)
    | ReadAck(c: nat)
    | AcksDone(c: nat)
    | OfferFuture(c: nat, task: nat, to: nat)
    | OffersDone(c: nat)
    | ServeRequest(c: nat, admissible: bool)
    | ServeDone(c: nat)
    | Choose(c: nat, sleep: Sleep)
    | Tick

  predicate Sleeping(core: Core, now: nat) {
    core.sleep.Forever? || (core.sleep.Until? && now < core.sleep.tick)
  }

  /** Reading stops at an entry that is still being written. What was sent in an earlier tick is
      written by now, because no tick ends before all its cores are through. */
  ghost predicate Enabled(cfg: Config, s: Sys, e: Event) {
    if e.Tick? then forall c :: 0 <= c < |s.cores| ==> s.cores[c].pc == Done
    else
      e.c < |s.cores| && e.c < |cfg| &&
      var core := s.cores[e.c];
      match e
      case Begin(_, _) => core.pc == Start
      case PendingEntry(_) => core.pc.Pending?
      case HomeTask(_, task) => core.pc.Home? && task in core.pc.todo && task in cfg[e.c]
      case HomeDone(_) => core.pc.Home? && core.pc.todo == {}
      case ReadAck(_) => core.pc == Drain && core.acks != []
      case AcksDone(_) => core.pc == Drain && core.oldAcks == 0
      case OfferFuture(_, task, to) =>
        core.pc == Offers && task in cfg[e.c] && cfg[e.c][task].period > 0 && to < |s.cores| && to != e.c
        && |core.records| < CAPACITY
        && var arrival := NextMultiple(s.now, cfg[e.c][task].period);
           arrival < s.now + LOOKAHEAD && !Recorded(core.records, task, arrival)
      case OffersDone(_) => core.pc == Offers
      case ServeRequest(_, _) => core.pc == Serve && core.requests != [] && core.requests[0].home < |s.cores|
      case ServeDone(_) => core.pc == Serve && core.oldRequests == 0
      case Choose(_, sleep) => core.pc == Rest && SleepAllowed(cfg[e.c], core, s.now, sleep)
  }

  function LessOne(n: nat): nat { if n > 0 then n - 1 else 0 }

  function SetCore(s: Sys, c: nat, core: Core): Sys
    requires c < |s.cores|
  {
    s.(cores := s.cores[c := core])
  }

  function Removed<T>(q: seq<T>, i: nat): seq<T>
    requires i < |q|
  {
    q[..i] + q[i + 1..]
  }

  /** One turn of the loop over the pending queue. */
  function PendingStep(cfg: Config, s: Sys, c: nat): Sys
    requires c < |s.cores| && c < |cfg| && s.cores[c].pc.Pending?
  {
    var core := s.cores[c];
    var at := core.pc.at;
    if |core.pending| <= at || s.now < core.pending[at].arrival then
      SetCore(s, c, core.(pc := Home(cfg[c].Keys)))
    else
      var k := core.pending[at];
      if k.arrival < s.now then
        if k.home < |cfg| && k.task in cfg[k.home] && cfg[k.home][k.task].crit < core.level then
          SetCore(s, c, core.(pending := Removed(core.pending, at)))
        else SetCore(s, c, core.(pc := Pending(at + 1)))
      else SetCore(s, c, core.(pending := Removed(core.pending, at))).(arrived := s.arrived + {k})
  }

  /** What a core does about one of its own tasks. */
  function HomeStep(cfg: Config, s: Sys, c: nat, task: nat): Sys
    requires c < |s.cores| && c < |cfg| && s.cores[c].pc.Home? && task in cfg[c]
  {
    var core, period := s.cores[c], cfg[c][task].period;
    var core' := core.(pc := Home(core.pc.todo - {task}));
    if period == 0 || s.now % period != 0 then SetCore(s, c, core')
    else
      var r := Scan(core.records, task, s.now);
      var s' := SetCore(s, c, core'.(records := r.0));
      if r.1 then s' else s'.(arrived := s.arrived + {Key(c, task, s.now)})
  }

  function RecKeys(c: nat, records: seq<Rec>): set<Key> {
    set r | r in records :: Key(c, r.task, r.arrival)
  }

  function OfferStep(s: Sys, c: nat, task: nat, arrival: nat, to: nat): Sys
    requires c < |s.cores| && to < |s.cores| && to != c
  {
    var core, k := s.cores[c], Key(c, task, arrival);
    var core' := core.(records := Insert(core.records, Rec(task, arrival, false), RecArrival),
                       window := core.window + {k});
    SetCore(SetCore(s, c, core'), to, s.cores[to].(requests := s.cores[to].requests + [k]))
  }

  /** A request for a job that still lies ahead is accepted if admissible: the job becomes pending
      here, and its home is told. Any other request is dropped. */
  function ServeStep(s: Sys, c: nat, admissible: bool): Sys
    requires c < |s.cores| && s.cores[c].requests != [] && s.cores[c].requests[0].home < |s.cores|
  {
    var core := s.cores[c];
    var k := core.requests[0];
    var s' := SetCore(s, c, core.(requests := core.requests[1..], oldRequests := LessOne(core.oldRequests)));
    if admissible && s.now < k.arrival then
      var t := SetCore(s', c, s'.cores[c].(pending := Insert(core.pending, k, KeyArrival)));
      SetCore(t, k.home, t.cores[k.home].(acks := t.cores[k.home].acks + [k]))
    else s'
  }

  /** The core has a job accepted by another core: noted in a record, or in an
      acknowledgement not yet read. */
  predicate Known(core: Core, k: Key) {
    k in core.acks || Rec(k.task, k.arrival, true) in core.records
  }

  /** Arrivals of this tick that a sleeping core passes over: it did not look out for them when it
      chose to sleep, and knows of nobody who has taken them over. */
  predicate PassedUp(c: nat, tasks: map<nat, TaskInfo>, now: nat, core: Core, k: Key) {
    && k.home == c && k.arrival == now && k.task in tasks
    && tasks[k.task].period > 0 && now % tasks[k.task].period == 0
    && tasks[k.task].crit < core.chosen && !Known(core, k)
  }

  function Awaken(c: nat, tasks: map<nat, TaskInfo>, now: nat, core: Core, newLevel: nat): Core {
    if Sleeping(core, now) then
      var passed := set i | i in tasks && PassedUp(c, tasks, now, core, Key(c, i, now)) :: Key(c, i, now);
      core.(level := newLevel, pc := Done, lost := core.lost + passed)
    else core.(level := newLevel, sleep := Awake, pc := Pending(0))
  }

  function Slept(core: Core, sleep: Sleep): Core {
    if sleep.Awake? then core.(sleep := sleep, pc := Done)
    else
      core.(sleep := sleep, pc := Done, chosen := core.level,
            top := if core.top < core.level then core.level else core.top)
  }

  function NextTick(core: Core): Core {
    core.(pc := Start, oldAcks := |core.acks|, oldRequests := |core.requests|)
  }

  ghost function Step(cfg: Config, s: Sys, e: Event): Sys
    requires Enabled(cfg, s, e)
  {
    if e.Tick? then s.(now := s.now + 1, cores := seq(|s.cores|, c requires 0 <= c < |s.cores| => NextTick(s.cores[c])))
    else
      var core := s.cores[e.c];
      match e
      case Begin(c, newLevel) => SetCore(s, c, Awaken(c, cfg[c], s.now, core, newLevel))
      case PendingEntry(c) => PendingStep(cfg, s, c)
      case HomeTask(c, task) => HomeStep(cfg, s, c, task)
      case HomeDone(c) => SetCore(s, c, core.(pc := Drain))
      case ReadAck(c) =>
        SetCore(s, c, core.(records := MarkOwned(core.records, core.acks[0].task, core.acks[0].arrival),
                                        acks := core.acks[1..], oldAcks := LessOne(core.oldAcks)))
      case AcksDone(c) => SetCore(s, c, core.(pc := Offers, window := RecKeys(c, core.records)))
      case OfferFuture(c, task, to) => OfferStep(s, c, task, NextMultiple(s.now, cfg[c][task].period), to)
      case OffersDone(c) => SetCore(s, c, core.(pc := Serve))
      case ServeRequest(c, admissible) => ServeStep(s, c, admissible)
      case ServeDone(c) => SetCore(s, c, core.(pc := Rest))
      case Choose(c, sleep) => SetCore(s, c, Slept(core, sleep))
  }

  // ---- the invariant ------------------------------------------------------------------------

  predicate Early(pc: Pc) {
    pc.Start? || pc.Pending? || pc.Home? || pc.Drain?
  }

  /** A record belongs to an arrival of one of the core's tasks, no later than its next period. */
  predicate RecordOk(tasks: map<nat, TaskInfo>, now: nat, pc: Pc, r: Rec) {
    && r.task in tasks && tasks[r.task].period > 0 && r.arrival % tasks[r.task].period == 0
    && (if Early(pc) then r.arrival < now + tasks[r.task].period else r.arrival <= now + tasks[r.task].period)
  }

  predicate Same(a: Rec, b: Rec) {
    a.task == b.task && a.arrival == b.arrival
  }

  ghost predicate RecordsOk(tasks: map<nat, TaskInfo>, now: nat, pc: Pc, records: seq<Rec>) {
    && Ordered(records, RecArrival)
    && (forall i, j :: 0 <= i < j < |records| ==> !Same(records[i], records[j]))
    && (forall r :: r in records ==> RecordOk(tasks, now, pc, r))
  }

  /** Jobs accepted from other cores lie ahead, and the core does not sleep past them. */
  ghost predicate PendingOk(now: nat, core: Core) {
    && Ordered(core.pending, KeyArrival)
    && (core.pc.Pending? ==> core.pc.at == 0)
    && (forall k :: k in core.pending ==> now <= k.arrival)
    && (!core.pc.Start? && !core.pc.Pending? ==> forall k :: k in core.pending ==> now < k.arrival)
    && (!core.sleep.Awake? ==> core.pc.Start? || core.pc.Done?)
    && (forall k :: k in core.pending && !core.sleep.Awake? ==> core.sleep.Until? && core.sleep.tick <= k.arrival)
  }

  predicate Distinct(q: seq<Key>) {
    forall i, j :: 0 <= i < j < |q| ==> q[i] != q[j]
  }

  ghost predicate WindowOk(c: nat, now: nat, core: Core) {
    && |core.window| <= CAPACITY
    && RecKeys(c, core.records) <= core.window
    && (core.pc.Offers? ==> core.window == RecKeys(c, core.records))
    && (forall k :: k in core.acks ==> k in core.window)
    && Distinct(core.acks)
    && core.oldAcks <= |core.acks|
    && (forall i :: core.oldAcks <= i < |core.acks| ==> now < core.acks[i].arrival)
  }

  predicate Handled(pc: Pc, task: nat) {
    match pc
    case Start => false
    case Pending(_) => false
    case Home(todo) => task !in todo
    case _ => true
  }

  /** The core has dealt with arrival `t` of `task`, or is going to sleep through it although it has
      looked out for the task's arrivals. */
  predicate Past(now: nat, core: Core, task: nat, info: TaskInfo, t: nat) {
    || t < now
    || (t == now && Handled(core.pc, task))
    || (core.chosen <= info.crit && (core.sleep.Forever? || (core.sleep.Until? && t < core.sleep.tick)))
  }

  /** Every arrival the core is through with has been released, waits in a pending queue or is lost;
      and only tasks below the highest level of a sleep lose any. */
  ghost predicate Covered(c: nat, tasks: map<nat, TaskInfo>, now: nat, core: Core, acc: iset<Key>) {
    && (core.sleep.Awake? || core.chosen <= core.top)
    && (forall i: nat, t: nat ::
          i in tasks && tasks[i].period > 0 && t % tasks[i].period == 0 && Past(now, core, i, tasks[i], t)
          ==> Key(c, i, t) in acc || Key(c, i, t) in core.lost)
    && (forall k :: k in core.lost ==> k.home == c && k.task in tasks && tasks[k.task].crit < core.top)
  }

  /** What another core has taken over has been released or waits in a pending queue. */
  ghost predicate Promised(c: nat, core: Core, acc: iset<Key>) {
    && (forall r :: r in core.records && r.owned ==> Key(c, r.task, r.arrival) in acc)
    && (forall k :: k in core.acks ==> k.home == c && k in acc)
  }

  ghost function Acc(s: Sys): iset<Key> {
    iset k | k in s.arrived || exists d :: 0 <= d < |s.cores| && k in s.cores[d].pending
  }

  ghost predicate CoreInv(c: nat, tasks: map<nat, TaskInfo>, now: nat, core: Core, acc: iset<Key>) {
    && RecordsOk(tasks, now, core.pc, core.records)
    && PendingOk(now, core)
    && WindowOk(c, now, core)
    && Covered(c, tasks, now, core, acc)
    && Promised(c, core, acc)
    && (core.pc.Home? ==> core.pc.todo <= tasks.Keys)
  }

  /** A request or acknowledgement for an arrival not yet past is backed by a record at its home. */
  predicate Backed(s: Sys, k: Key) {
    k.home < |s.cores| && (s.now <= k.arrival ==> k in RecKeys(k.home, s.cores[k.home].records))
  }

  /** No arrival is requested or acknowledged twice. */
  ghost predicate TrafficOk(s: Sys) {
    && (forall d, k :: 0 <= d < |s.cores| && k in s.cores[d].requests ==> Backed(s, k))
    && (forall d, e, k :: 0 <= d < |s.cores| && 0 <= e < |s.cores| && k in s.cores[d].requests ==>
        k !in s.cores[e].acks)
    && (forall d, k :: 0 <= d < |s.cores| && k in s.cores[d].acks ==> Backed(s, k) && k.home == d)
    && (forall d :: 0 <= d < |s.cores| ==> Distinct(s.cores[d].requests))
    && (forall d, e, k :: 0 <= d < |s.cores| && 0 <= e < |s.cores| && d != e && k in s.cores[d].requests ==>
        k !in s.cores[e].requests)
  }

  ghost predicate Inv(cfg: Config, s: Sys) {
    && |s.cores| == |cfg|
    && (forall c :: 0 <= c < |s.cores| ==> CoreInv(c, cfg[c], s.now, s.cores[c], Acc(s)))
    && TrafficOk(s)
  }

  /** The arrival's home has not come to it yet. */
  predicate Ahead(now: nat, home: Core, k: Key) {
    now < k.arrival || (k.arrival == now && !Handled(home.pc, k.task))
  }

  /** The home of a job that another core has taken over knows of it until it has handled the arrival;
      a lost arrival has been taken over by nobody. */
  ghost predicate Told(s: Sys, acc: iset<Key>) {
    && (forall k :: k in acc ==> k.home < |s.cores| && (Ahead(s.now, s.cores[k.home], k) ==> Known(s.cores[k.home], k)))
    && (forall c, k :: 0 <= c < |s.cores| && k in s.cores[c].lost ==>
          k !in acc && k.home == c && !Ahead(s.now, s.cores[c], k))
  }

  /** A request goes to a core other than the job's home, and so does the job. */
  ghost predicate Abroad(s: Sys) {
    forall d, k :: 0 <= d < |s.cores| && (k in s.cores[d].requests || k in s.cores[d].pending) ==> k.home != d
  }

  // ---- the scans ----------------------------------------------------------------------------

  ghost predicate HasOwned(records: seq<Rec>, task: nat, now: nat) {
    exists r :: r in records && r.task == task && now <= r.arrival && r.owned
  }

  lemma HeadOrTail<T(!new)>(q: seq<T>)
    requires q != []
    ensures forall x :: x in q <==> x == q[0] || x in q[1..]
  {
  }

  lemma HeadLeast(records: seq<Rec>)
    requires records != [] && Ordered(records, RecArrival)
    ensures Ordered(records[1..], RecArrival)
    ensures forall r :: r in records ==> records[0].arrival <= r.arrival
  {
    forall r | r in records ensures records[0].arrival <= r.arrival {
      var i :| 0 <= i < |records| && records[i] == r;
      if i > 0 {
        assert RecArrival(records[0]) <= RecArrival(records[i]);
      }
    }
  }

  /** On sorted records the scan drops exactly the stale ones, all of them at the front. */
  lemma {:induction false} ScanDropsStale(records: seq<Rec>, task: nat, now: nat) returns (m: nat)
    requires Ordered(records, RecArrival)
    ensures m <= |records| && Scan(records, task, now).0 == records[m..]
    ensures forall i :: 0 <= i < m ==> records[i].arrival < now
    ensures forall r :: r in records[m..] ==> now <= r.arrival
    ensures Scan(records, task, now).1 <==> HasOwned(records, task, now)
  {
    hide Ordered;
    m := 0;
    if records != [] {
      HeadOrTail(records);
      HeadLeast(records);
      if records[0].arrival < now {
        var k := ScanDropsStale(records[1..], task, now);
        m := k + 1;
        assert records[1..][k..] == records[m..];
      } else {
        NothingStale(records, task, now);
        assert records[0..] == records;
      }
    }
  }

  lemma {:induction false} NothingStale(records: seq<Rec>, task: nat, now: nat)
    requires forall r :: r in records ==> now <= r.arrival
    ensures Scan(records, task, now).0 == records
    ensures Scan(records, task, now).1 <==> HasOwned(records, task, now)
  {
    if records != [] {
      HeadOrTail(records);
      NothingStale(records[1..], task, now);
      assert records == [records[0]] + records[1..];
    }
  }

  /** Acknowledging never takes a mark away. */
  lemma {:induction false} MarksStay(records: seq<Rec>, task: nat, arrival: nat, r: Rec)
    requires r in records && r.owned
    ensures r in MarkOwned(records, task, arrival)
  {
    if records[0].task == task && records[0].arrival == arrival {
      if r == records[0] {
        assert MarkOwned(records, task, arrival)[0] == r;
      } else {
        var i :| 0 <= i < |records| && records[i] == r;
        assert MarkOwned(records, task, arrival)[i] == r;
      }
    } else if r == records[0] {
      assert MarkOwned(records, task, arrival)[0] == r;
    } else {
      MarksStay(records[1..], task, arrival, r);
    }
  }

  lemma {:induction false} MarkKeeps(records: seq<Rec>, task: nat, arrival: nat)
    ensures var m := MarkOwned(records, task, arrival);
            && |m| == |records|
            && forall i :: 0 <= i < |m| ==>
                 && Same(m[i], records[i])
                 && (m[i].owned ==> records[i].owned || Same(m[i], Rec(task, arrival, true)))
  {
    if records != [] {
      MarkKeeps(records[1..], task, arrival);
    }
  }

  /** On sorted records the scan that stops early finds a record exactly when there is one. */
  lemma {:induction false} RecordedExact(records: seq<Rec>, task: nat, arrival: nat)
    requires Ordered(records, RecArrival)
    ensures Recorded(records, task, arrival) <==> exists r :: r in records && r.task == task && r.arrival == arrival
  {
    if records != [] {
      HeadOrTail(records);
      HeadLeast(records);
      RecordedExact(records[1..], task, arrival);
    }
  }

  lemma MultiplesApart(a: nat, b: nat, p: nat)
    requires p > 0 && a % p == 0 && b % p == 0 && a < b
    ensures a + p <= b
  {
    var x, y := a / p, b / p;
    assert a == p * x && b == p * y;
    if y <= x {
      Numbers.MulWeak(p, y, x);
    } else {
      Numbers.MulWeak(p, x + 1, y);
    }
  }

  lemma NextMultipleIs(now: nat, p: nat)
    requires p > 0
    ensures var n := NextMultiple(now, p);
            n % p == 0 && now < n <= now + p && n == now + (p - now % p)
  {
    assert now == p * (now / p) + now % p;
    MultipleMod(now / p + 1, p);
  }

  lemma {:induction false} MultipleMod(x: nat, p: nat)
    requires p > 0
    ensures (x * p) % p == 0
  {
    if x > 0 {
      MultipleMod(x - 1, p);
      assert x * p == (x - 1) * p + p;
      assert ((x - 1) * p + p) % p == ((x - 1) * p) % p by { AddPeriod((x - 1) * p, p); }
    }
  }

  lemma AddPeriod(a: nat, p: nat)
    requires p > 0
    ensures (a + p) % p == a % p
  {
    var q, r := a / p, a % p;
    assert a + p == p * (q + 1) + r;
    Numbers.DivModUnique(a + p, p, q + 1, r);
  }

  /** An arrival that the search for the next one passed over is covered by an owned record. */
  lemma {:induction false} PassedOver(records: seq<Rec>, task: nat, period: nat, next: nat, t: nat)
    requires period > 0 && next % period == 0 && t % period == 0
    requires next <= t < NextFor(records, task, period, next)
    ensures exists r :: r in records && r.task == task && r.arrival == t && r.owned
  {
    if records != [] {
      assert forall r :: r in records[1..] ==> r in records;
      if records[0].arrival == next && records[0].task == task && records[0].owned {
        if t != next {
          MultiplesApart(next, t, period);
          AddPeriod(next, period);
          PassedOver(records[1..], task, period, next + period, t);
        } else {
          assert records[0] in records;
        }
      } else {
        PassedOver(records[1..], task, period, next, t);
      }
    }
  }

  // ---- each step keeps its own core in order ------------------------------------------------

  lemma MoreAccepted(c: nat, tasks: map<nat, TaskInfo>, now: nat, core: Core, acc: iset<Key>, acc': iset<Key>)
    requires CoreInv(c, tasks, now, core, acc) && acc <= acc'
    ensures CoreInv(c, tasks, now, core, acc')
  {
    hide RecordsOk, PendingOk, WindowOk;
  }

  /** A core that sleeps on records as lost what it passes over; one that is awake starts its tick.
      Its level may go either way. */
  lemma BeginOwn(c: nat, tasks: map<nat, TaskInfo>, now: nat, core: Core, acc: iset<Key>, newLevel: nat)
    requires CoreInv(c, tasks, now, core, acc) && core.pc == Start
    ensures CoreInv(c, tasks, now, Awaken(c, tasks, now, core, newLevel), acc)
  {
    hide RecKeys, Ordered, Distinct, RecordsOk;
    var core' := Awaken(c, tasks, now, core, newLevel);
    EarlyIrrelevant(tasks, now, core.pc, core'.pc, core.records);
    forall i: nat, t: nat | i in tasks && tasks[i].period > 0 && t % tasks[i].period == 0
        && Past(now, core', i, tasks[i], t)
      ensures Key(c, i, t) in acc || Key(c, i, t) in core'.lost
    {
      if !Past(now, core, i, tasks[i], t) && !PassedUp(c, tasks, now, core, Key(c, i, t)) {
        assert Known(core, Key(c, i, t));
      }
    }
  }

  /** A step that only moves the program counter forward. */
  lemma PcOwn(c: nat, tasks: map<nat, TaskInfo>, now: nat, core: Core, acc: iset<Key>, pc: Pc)
    requires CoreInv(c, tasks, now, core, acc)
    requires match core.pc
             case Home(todo) => todo == {} && pc == Drain
             case Offers => pc == Serve
             case Serve => pc == Rest
             case _ => false
    ensures CoreInv(c, tasks, now, core.(pc := pc), acc)
  {
    hide RecKeys, Ordered, Distinct;
  }

  /** In every turn of the loop over the pending queue the next job lies at or after the present
      tick: no pending job is ever missed. */
  lemma PendingNotMissed(c: nat, tasks: map<nat, TaskInfo>, now: nat, core: Core, acc: iset<Key>)
    requires CoreInv(c, tasks, now, core, acc) && core.pc.Pending?
    ensures core.pc.at == 0 && (core.pending != [] ==> now <= core.pending[0].arrival)
  {
    hide RecordsOk, WindowOk, Covered, Promised, Ordered;
  }

  lemma KeyLeast(q: seq<Key>)
    requires q != [] && Ordered(q, KeyArrival)
    ensures Ordered(q[1..], KeyArrival)
    ensures forall k :: k in q ==> q[0].arrival <= k.arrival
  {
    forall k | k in q ensures q[0].arrival <= k.arrival {
      var i :| 0 <= i < |q| && q[i] == k;
      if i > 0 {
        assert KeyArrival(q[0]) <= KeyArrival(q[i]);
      }
    }
  }

  lemma PendingDoneOwn(c: nat, tasks: map<nat, TaskInfo>, now: nat, core: Core, acc: iset<Key>)
    requires CoreInv(c, tasks, now, core, acc) && core.pc.Pending?
    requires core.pending == [] || now < core.pending[0].arrival
    ensures CoreInv(c, tasks, now, core.(pc := Home(tasks.Keys)), acc)
  {
    hide RecKeys, Ordered, Distinct;
    if core.pending != [] {
      KeyLeast(core.pending);
    }
  }

  lemma PendingTakeOwn(c: nat, tasks: map<nat, TaskInfo>, now: nat, core: Core, acc: iset<Key>)
    requires CoreInv(c, tasks, now, core, acc) && core.pc.Pending? && core.pending != []
    ensures CoreInv(c, tasks, now, core.(pending := core.pending[1..]), acc)
  {
    hide RecordsOk, RecKeys, Ordered, Distinct;
    KeyLeast(core.pending);
  }

  lemma SuffixOk(tasks: map<nat, TaskInfo>, now: nat, pc: Pc, records: seq<Rec>, m: nat)
    requires RecordsOk(tasks, now, pc, records) && m <= |records|
    ensures RecordsOk(tasks, now, pc, records[m..])
  {
    hide RecordOk;
    assert forall r :: r in records[m..] ==> r in records;
    forall i, j | 0 <= i < j < |records[m..]|
      ensures RecArrival(records[m..][i]) <= RecArrival(records[m..][j]) && !Same(records[m..][i], records[m..][j])
    {
      assert RecArrival(records[m + i]) <= RecArrival(records[m + j]);
      assert !Same(records[m + i], records[m + j]);
    }
  }

  /** Before new offers are made, a record that has not gone stale at one of its task's arrivals is
      for this very arrival. */
  lemma NotStaleIsNow(tasks: map<nat, TaskInfo>, now: nat, pc: Pc, r: Rec)
    requires RecordOk(tasks, now, pc, r) && Early(pc) && now <= r.arrival && now % tasks[r.task].period == 0
    ensures r.arrival == now
  {
    if now < r.arrival {
      MultiplesApart(now, r.arrival, tasks[r.task].period);
    }
  }

  lemma EarlyIrrelevant(tasks: map<nat, TaskInfo>, now: nat, pc: Pc, pc': Pc, records: seq<Rec>)
    requires RecordsOk(tasks, now, pc, records) && (Early(pc') ==> Early(pc))
    ensures RecordsOk(tasks, now, pc', records)
  {
    hide Ordered;
  }

  /** Handling one of the core's own tasks covers its arrival at this tick: it is released here, or
      an owned record shows that another core has accepted it. */
  lemma HomeOwn(c: nat, tasks: map<nat, TaskInfo>, now: nat, core: Core, acc: iset<Key>, task: nat)
    requires CoreInv(c, tasks, now, core, acc) && core.pc.Home? && task in core.pc.todo && task in tasks
    ensures var p := tasks[task].period;
            var core' := core.(pc := Home(core.pc.todo - {task}));
            if p == 0 || now % p != 0 then CoreInv(c, tasks, now, core', acc)
            else
              var r := Scan(core.records, task, now);
              CoreInv(c, tasks, now, core'.(records := r.0), if r.1 then acc else acc + iset{Key(c, task, now)})
  {
    hide RecordsOk, Ordered, Distinct, Scan, HasOwned;
    var p := tasks[task].period;
    var pc' := Home(core.pc.todo - {task});
    EarlyIrrelevant(tasks, now, core.pc, pc', core.records);
    if p != 0 && now % p == 0 {
      HomeRelease(c, tasks, now, core, acc, task);
    }
  }

  lemma HomeRelease(c: nat, tasks: map<nat, TaskInfo>, now: nat, core: Core, acc: iset<Key>, task: nat)
    requires CoreInv(c, tasks, now, core, acc) && core.pc.Home? && task in core.pc.todo && task in tasks
    requires tasks[task].period > 0 && now % tasks[task].period == 0
    ensures var r := Scan(core.records, task, now);
            CoreInv(c, tasks, now, core.(pc := Home(core.pc.todo - {task}), records := r.0),
                    if r.1 then acc else acc + iset{Key(c, task, now)})
  {
    hide RecordsOk, Ordered, Distinct, Scan;
    var r := Scan(core.records, task, now);
    var pc' := Home(core.pc.todo - {task});
    RecordFacts(tasks, now, core.pc, core.records);
    var m := ScanDropsStale(core.records, task, now);
    SuffixOk(tasks, now, core.pc, core.records, m);
    EarlyIrrelevant(tasks, now, core.pc, pc', r.0);
    assert forall x :: x in r.0 ==> x in core.records;
    if r.1 {
      var x :| x in core.records && x.task == task && now <= x.arrival && x.owned;
      NotStaleIsNow(tasks, now, core.pc, x);
      assert Key(c, task, now) in acc;
    }
  }

  lemma RecordFacts(tasks: map<nat, TaskInfo>, now: nat, pc: Pc, records: seq<Rec>)
    requires RecordsOk(tasks, now, pc, records)
    ensures Ordered(records, RecArrival)
    ensures forall r :: r in records ==> RecordOk(tasks, now, pc, r)
  {
    hide Ordered, RecordOk;
  }

  lemma SameKeys(c: nat, a: seq<Rec>, b: seq<Rec>)
    requires |a| == |b| && forall i :: 0 <= i < |a| ==> Same(a[i], b[i])
    ensures RecKeys(c, a) == RecKeys(c, b)
  {
    forall k ensures k in RecKeys(c, a) <==> k in RecKeys(c, b) {
      if k in RecKeys(c, a) {
        var i :| 0 <= i < |a| && k == Key(c, a[i].task, a[i].arrival);
        assert b[i] in b && Same(a[i], b[i]);
      }
      if k in RecKeys(c, b) {
        var i :| 0 <= i < |b| && k == Key(c, b[i].task, b[i].arrival);
        assert a[i] in a && Same(a[i], b[i]);
      }
    }
  }

  lemma MarkedOk(tasks: map<nat, TaskInfo>, now: nat, pc: Pc, a: seq<Rec>, b: seq<Rec>)
    requires RecordsOk(tasks, now, pc, a) && |a| == |b| && forall i :: 0 <= i < |a| ==> Same(b[i], a[i])
    ensures RecordsOk(tasks, now, pc, b)
  {
    forall i, j | 0 <= i < j < |b| ensures RecArrival(b[i]) <= RecArrival(b[j]) && !Same(b[i], b[j]) {
      assert RecArrival(a[i]) <= RecArrival(a[j]) && !Same(a[i], a[j]);
    }
    forall r | r in b ensures RecordOk(tasks, now, pc, r) {
      var i :| 0 <= i < |b| && b[i] == r;
      assert a[i] in a;
    }
  }

  lemma ReadAckOwn(c: nat, tasks: map<nat, TaskInfo>, now: nat, core: Core, acc: iset<Key>)
    requires CoreInv(c, tasks, now, core, acc) && core.pc == Drain && core.acks != []
    ensures CoreInv(c, tasks, now,
                    core.(records := MarkOwned(core.records, core.acks[0].task, core.acks[0].arrival),
                          acks := core.acks[1..], oldAcks := LessOne(core.oldAcks)), acc)
  {
    hide RecordsOk, RecKeys, MarkOwned, Ordered;
    var k, a, b := core.acks[0], core.records, MarkOwned(core.records, core.acks[0].task, core.acks[0].arrival);
    MarkKeeps(a, k.task, k.arrival);
    SameKeys(c, b, a);
    MarkedOk(tasks, now, core.pc, a, b);
    forall r | r in b && r.owned ensures Key(c, r.task, r.arrival) in acc {
      var i :| 0 <= i < |b| && b[i] == r;
      assert a[i] in a;
      assert k in core.acks;
    }
  }

  lemma AcksDoneOwn(c: nat, tasks: map<nat, TaskInfo>, now: nat, core: Core, acc: iset<Key>)
    requires CoreInv(c, tasks, now, core, acc) && core.pc == Drain && core.oldAcks == 0
    requires forall k :: k in core.acks && now <= k.arrival ==> k in RecKeys(c, core.records)
    ensures CoreInv(c, tasks, now, core.(pc := Offers, window := RecKeys(c, core.records)), acc)
  {
    hide RecordsOk, RecKeys;
    SubsetSize(RecKeys(c, core.records), core.window);
    EarlyIrrelevant(tasks, now, core.pc, Offers, core.records);
  }

  lemma {:induction false} FewKeys(c: nat, records: seq<Rec>)
    ensures |RecKeys(c, records)| <= |records|
  {
    if records == [] {
      assert RecKeys(c, records) == {};
    } else {
      FewKeys(c, records[1..]);
      var r := records[0];
      HeadOrTail(records);
      assert RecKeys(c, records) == RecKeys(c, records[1..]) + {Key(c, r.task, r.arrival)};
    }
  }

  ghost predicate NoneSame(records: seq<Rec>) {
    forall i, j :: 0 <= i < j < |records| ==> !Same(records[i], records[j])
  }

  lemma InsertedApart(records: seq<Rec>, r: Rec, i: nat)
    requires i <= |records| && NoneSame(records) && forall x :: x in records ==> !Same(x, r)
    ensures NoneSame(records[..i] + [r] + records[i..])
  {
    var q := records[..i] + [r] + records[i..];
    forall a, b | 0 <= a < b < |q| ensures !Same(q[a], q[b]) {
      if a == i {
        assert q[a] == r && q[b] == records[b - 1] && records[b - 1] in records;
      } else if b == i {
        assert q[b] == r && q[a] == records[a] && records[a] in records;
      } else {
        var x, y := if a < i then a else a - 1, if b < i then b else b - 1;
        assert q[a] == records[x] && q[b] == records[y];
        assert !Same(records[x], records[y]);
      }
    }
  }

  lemma InsertedOk(tasks: map<nat, TaskInfo>, now: nat, pc: Pc, records: seq<Rec>, r: Rec)
    requires RecordsOk(tasks, now, pc, records) && RecordOk(tasks, now, pc, r)
    requires forall x :: x in records ==> !Same(x, r)
    ensures RecordsOk(tasks, now, pc, Insert(records, r, RecArrival))
  {
    hide RecordOk, Ordered, Same;
    InsertMembers(records, r, RecArrival);
    InsertOrdered(records, r, RecArrival);
    var i := InsertPlace(records, r, RecArrival);
    InsertedApart(records, r, i);
  }

  lemma InsertedKeys(c: nat, records: seq<Rec>, r: Rec)
    ensures RecKeys(c, Insert(records, r, RecArrival)) == RecKeys(c, records) + {Key(c, r.task, r.arrival)}
  {
    hide Insert;
    InsertMembers(records, r, RecArrival);
  }

  lemma OfferOwn(c: nat, tasks: map<nat, TaskInfo>, now: nat, core: Core, acc: iset<Key>, task: nat, arrival: nat)
    requires CoreInv(c, tasks, now, core, acc) && core.pc == Offers && |core.records| < CAPACITY
    requires task in tasks && tasks[task].period > 0 && arrival == NextMultiple(now, tasks[task].period)
    requires !Recorded(core.records, task, arrival)
    ensures CoreInv(c, tasks, now,
                    core.(records := Insert(core.records, Rec(task, arrival, false), RecArrival),
                          window := core.window + {Key(c, task, arrival)}), acc)
    ensures Key(c, task, arrival) !in RecKeys(c, core.records) && now < arrival
  {
    hide RecordsOk, Insert, NextMultiple, Recorded, RecKeys, Ordered, Distinct;
    var r := Rec(task, arrival, false);
    NextMultipleIs(now, tasks[task].period);
    RecordFacts(tasks, now, core.pc, core.records);
    NotRecorded(c, core.records, task, arrival);
    InsertedOk(tasks, now, core.pc, core.records, r);
    InsertMembers(core.records, r, RecArrival);
    InsertedKeys(c, core.records, r);
    FewKeys(c, core.records);
    WithOne(core.window, Key(c, task, arrival));
  }

  lemma WithOne<T>(a: set<T>, x: T)
    ensures |a + {x}| <= |a| + 1
  {
    if x in a {
      assert a + {x} == a;
    }
  }

  lemma NotRecorded(c: nat, records: seq<Rec>, task: nat, arrival: nat)
    requires Ordered(records, RecArrival) && !Recorded(records, task, arrival)
    ensures Key(c, task, arrival) !in RecKeys(c, records)
    ensures forall x :: x in records ==> !Same(x, Rec(task, arrival, false))
  {
    RecordedExact(records, task, arrival);
  }

  lemma AcceptOwn(c: nat, tasks: map<nat, TaskInfo>, now: nat, core: Core, acc: iset<Key>, k: Key)
    requires CoreInv(c, tasks, now, core, acc) && core.pc == Serve && now < k.arrival
    ensures CoreInv(c, tasks, now, core.(pending := Insert(core.pending, k, KeyArrival)), acc)
  {
    hide RecordsOk, Insert, RecKeys, Ordered, Distinct;
    InsertMembers(core.pending, k, KeyArrival);
    InsertOrdered(core.pending, k, KeyArrival);
  }

  /** Only the list of requests changes. */
  lemma RequestsOwn(c: nat, tasks: map<nat, TaskInfo>, now: nat, core: Core, acc: iset<Key>, requests: seq<Key>, n: nat)
    requires CoreInv(c, tasks, now, core, acc)
    ensures CoreInv(c, tasks, now, core.(requests := requests, oldRequests := n), acc)
  {
    hide RecordsOk, RecKeys, Ordered, Distinct;
  }

  /** The home of an accepted job gets its acknowledgement, for which there is room. */
  lemma AckOwn(c: nat, tasks: map<nat, TaskInfo>, now: nat, core: Core, acc: iset<Key>, k: Key)
    requires CoreInv(c, tasks, now, core, acc) && k.home == c && k in RecKeys(c, core.records) && k !in core.acks
    requires k in acc
    requires now < k.arrival
    ensures CoreInv(c, tasks, now, core.(acks := core.acks + [k]), acc)
    ensures |core.acks| < CAPACITY
  {
    hide RecordsOk, RecKeys, Ordered;
    var acks' := core.acks + [k];
    assert forall x :: x in acks' <==> x in core.acks || x == k;
    DistinctFew(acks', core.window);
  }

  lemma {:induction false} DistinctFew(q: seq<Key>, w: set<Key>)
    requires Distinct(q) && forall k :: k in q ==> k in w
    ensures |q| <= |w|
  {
    if q != [] {
      assert q[0] in q;
      forall k | k in q[1..] ensures k in w - {q[0]} {
        var i :| 0 <= i < |q[1..]| && q[1..][i] == k;
        assert q[i + 1] == k;
      }
      DistinctFew(q[1..], w - {q[0]});
    }
  }

  /** A core that goes to sleep has covered everything it will sleep through. */
  lemma ChooseOwn(c: nat, tasks: map<nat, TaskInfo>, now: nat, core: Core, acc: iset<Key>, sleep: Sleep)
    requires CoreInv(c, tasks, now, core, acc) && core.pc == Rest && SleepAllowed(tasks, core, now, sleep)
    ensures CoreInv(c, tasks, now, Slept(core, sleep), acc)
  {
    hide RecKeys, Ordered, NextFor, RecordsOk, Distinct;
    var core' := Slept(core, sleep);
    EarlyIrrelevant(tasks, now, core.pc, core'.pc, core.records);
    forall i: nat, t: nat | i in tasks && tasks[i].period > 0 && t % tasks[i].period == 0
        && Past(now, core', i, tasks[i], t)
      ensures Key(c, i, t) in acc || Key(c, i, t) in core'.lost
    {
      if now < t {
        var p := tasks[i].period;
        var first := now + (p - now % p);
        NextMultipleIs(now, p);
        assert sleep.Until? && t < NextArrival(core, i, tasks[i], now);
        FirstMultiple(now, p, t);
        PassedOver(core.records, i, p, first, t);
      }
    }
  }

  lemma FirstMultiple(now: nat, p: nat, t: nat)
    requires p > 0 && t % p == 0 && now < t
    ensures now + (p - now % p) <= t
  {
    hide NextMultiple;
    NextMultipleIs(now, p);
    var n := NextMultiple(now, p);
    if t < n {
      MultiplesApart(t, n, p);
    }
  }

  lemma TickOwn(c: nat, tasks: map<nat, TaskInfo>, now: nat, core: Core, acc: iset<Key>)
    requires CoreInv(c, tasks, now, core, acc) && core.pc == Done
    ensures CoreInv(c, tasks, now + 1, NextTick(core), acc)
  {
    hide RecKeys, Ordered, Distinct;
  }

  // ---- each step keeps the invariant --------------------------------------------------------

  lemma AccGrows(s: Sys, s': Sys)
    requires |s'.cores| == |s.cores| && s.arrived <= s'.arrived
    requires forall d, k :: 0 <= d < |s.cores| && k in s.cores[d].pending ==>
               k in s'.arrived || k in s'.cores[d].pending
    ensures Acc(s) <= Acc(s')
  {
  }

  lemma AccHas(s: Sys, k: Key)
    ensures k in s.arrived ==> k in Acc(s)
    ensures forall d :: 0 <= d < |s.cores| && k in s.cores[d].pending ==> k in Acc(s)
  {
  }

  /** If one core changes and stays in order, and nothing accepted is lost, all cores stay in order. */
  lemma OthersOrdered(cfg: Config, s: Sys, s': Sys, c: nat)
    requires Inv(cfg, s) && c < |s.cores| && s'.now == s.now && Acc(s) <= Acc(s')
    requires |s'.cores| == |s.cores| && forall d :: 0 <= d < |s.cores| && d != c ==> s'.cores[d] == s.cores[d]
    requires CoreInv(c, cfg[c], s.now, s'.cores[c], Acc(s')) && TrafficOk(s')
    ensures Inv(cfg, s')
  {
    hide CoreInv, TrafficOk, Acc;
    forall d | 0 <= d < |s.cores| && d != c ensures CoreInv(d, cfg[d], s.now, s'.cores[d], Acc(s')) {
      MoreAccepted(d, cfg[d], s.now, s.cores[d], Acc(s), Acc(s'));
    }
  }

  /** Steps that leave requests, acknowledgements and live records alone keep the traffic in order. */
  lemma TrafficFrame(s: Sys, s': Sys, c: nat)
    requires TrafficOk(s) && s'.now == s.now && |s'.cores| == |s.cores| && c < |s.cores|
    requires forall d :: 0 <= d < |s.cores| && d != c ==> s'.cores[d] == s.cores[d]
    requires s'.cores[c].requests == s.cores[c].requests
    requires s'.cores[c].acks == s.cores[c].acks || (s.cores[c].acks != [] && s'.cores[c].acks == s.cores[c].acks[1..])
    requires forall k :: k in RecKeys(c, s.cores[c].records) && s.now <= k.arrival ==>
               k in RecKeys(c, s'.cores[c].records)
    ensures TrafficOk(s')
  {
    hide RecKeys, Distinct;
    if s.cores[c].acks != [] {
      HeadOrTail(s.cores[c].acks);
    }
    assert forall d :: 0 <= d < |s.cores| ==> s'.cores[d].requests == s.cores[d].requests;
    assert forall d, k :: 0 <= d < |s.cores| && k in s'.cores[d].acks ==> k in s.cores[d].acks;
    forall k | Backed(s, k) ensures Backed(s', k) {
    }
  }

  /** A step of one core that keeps requests and acknowledgements. */
  lemma QuietStep(cfg: Config, s: Sys, c: nat, core': Core, arrived': set<Key>)
    requires Inv(cfg, s) && c < |s.cores| && s.arrived <= arrived'
    requires var core := s.cores[c];
             && core'.requests == core.requests
             && (core'.acks == core.acks || (core.acks != [] && core'.acks == core.acks[1..]))
             && (forall k :: k in RecKeys(c, core.records) && s.now <= k.arrival ==> k in RecKeys(c, core'.records))
             && (forall k :: k in core.pending ==> k in core'.pending || k in arrived')
    requires CoreInv(c, cfg[c], s.now, core', Acc(SetCore(s, c, core').(arrived := arrived')))
    ensures Inv(cfg, SetCore(s, c, core').(arrived := arrived'))
  {
    hide CoreInv, Acc, TrafficOk, RecKeys;
    var s' := SetCore(s, c, core').(arrived := arrived');
    AccGrows(s, s');
    TrafficFrame(s, s', c);
    OthersOrdered(cfg, s, s', c);
  }

  /** The same, when the new core is in order with respect to what was accepted before. */
  lemma QuietOwn(cfg: Config, s: Sys, c: nat, core': Core, arrived': set<Key>, acc: iset<Key>)
    requires Inv(cfg, s) && c < |s.cores| && s.arrived <= arrived'
    requires var core := s.cores[c];
             && core'.requests == core.requests
             && (core'.acks == core.acks || (core.acks != [] && core'.acks == core.acks[1..]))
             && (forall k :: k in RecKeys(c, core.records) && s.now <= k.arrival ==> k in RecKeys(c, core'.records))
             && (forall k :: k in core.pending ==> k in core'.pending || k in arrived')
    requires CoreInv(c, cfg[c], s.now, core', acc)
    requires forall k :: k in acc ==> k in Acc(s) || k in arrived'
    ensures Inv(cfg, SetCore(s, c, core').(arrived := arrived'))
  {
    hide CoreInv, TrafficOk, RecKeys, Acc;
    var s' := SetCore(s, c, core').(arrived := arrived');
    AccGrows(s, s');
    forall k | k in acc ensures k in Acc(s') {
      AccHas(s', k);
    }
    MoreAccepted(c, cfg[c], s.now, core', acc, Acc(s'));
    QuietStep(cfg, s, c, core', arrived');
  }

  lemma CoreOk(cfg: Config, s: Sys, c: nat)
    requires Inv(cfg, s) && c < |s.cores|
    ensures CoreInv(c, cfg[c], s.now, s.cores[c], Acc(s)) && |s.cores| == |cfg|
  {
    hide CoreInv, TrafficOk, Acc;
  }

  lemma StepPending(cfg: Config, s: Sys, c: nat)
    requires Inv(cfg, s) && c < |s.cores| && c < |cfg| && s.cores[c].pc.Pending?
    ensures Inv(cfg, PendingStep(cfg, s, c))
  {
    hide CoreInv, Inv, Acc, RecKeys;
    var core := s.cores[c];
    CoreOk(cfg, s, c);
    PendingNotMissed(c, cfg[c], s.now, core, Acc(s));
    if core.pending == [] || s.now < core.pending[0].arrival {
      PendingDoneOwn(c, cfg[c], s.now, core, Acc(s));
      QuietOwn(cfg, s, c, core.(pc := Home(cfg[c].Keys)), s.arrived, Acc(s));
    } else {
      PendingTakeOwn(c, cfg[c], s.now, core, Acc(s));
      HeadOrTail(core.pending);
      assert Removed(core.pending, 0) == core.pending[1..];
      QuietOwn(cfg, s, c, core.(pending := core.pending[1..]), s.arrived + {core.pending[0]}, Acc(s));
    }
  }

  lemma StepHome(cfg: Config, s: Sys, c: nat, task: nat)
    requires Inv(cfg, s) && c < |s.cores| && c < |cfg| && s.cores[c].pc.Home?
    requires task in s.cores[c].pc.todo && task in cfg[c]
    ensures Inv(cfg, HomeStep(cfg, s, c, task))
  {
    hide CoreInv, Inv, Acc, RecKeys, Scan, HasOwned;
    var core, period := s.cores[c], cfg[c][task].period;
    CoreOk(cfg, s, c);
    HomeOwn(c, cfg[c], s.now, core, Acc(s), task);
    var core' := core.(pc := Home(core.pc.todo - {task}));
    if period == 0 || s.now % period != 0 {
      QuietOwn(cfg, s, c, core', s.arrived, Acc(s));
    } else {
      var r := Scan(core.records, task, s.now);
      LiveKept(cfg, s, c, task);
      if r.1 {
        QuietOwn(cfg, s, c, core'.(records := r.0), s.arrived, Acc(s));
      } else {
        QuietOwn(cfg, s, c, core'.(records := r.0), s.arrived + {Key(c, task, s.now)},
            Acc(s) + iset{Key(c, task, s.now)});
      }
    }
  }

  lemma LiveKept(cfg: Config, s: Sys, c: nat, task: nat)
    requires Inv(cfg, s) && c < |s.cores|
    ensures forall k :: k in RecKeys(c, s.cores[c].records) && s.now <= k.arrival ==>
              k in RecKeys(c, Scan(s.cores[c].records, task, s.now).0)
  {
    hide Inv, Acc, Scan, Covered, PendingOk, WindowOk, Promised, HasOwned;
    var records := s.cores[c].records;
    CoreOk(cfg, s, c);
    RecordFacts(cfg[c], s.now, s.cores[c].pc, records);
    var m := ScanDropsStale(records, task, s.now);
    forall k | k in RecKeys(c, records) && s.now <= k.arrival ensures k in RecKeys(c, records[m..]) {
      var i :| 0 <= i < |records| && k == Key(c, records[i].task, records[i].arrival);
      assert records[i] == records[m..][i - m];
    }
  }

  lemma AcksBacked(cfg: Config, s: Sys, c: nat)
    requires Inv(cfg, s) && c < |s.cores|
    ensures forall k :: k in s.cores[c].acks && s.now <= k.arrival ==> k in RecKeys(c, s.cores[c].records)
  {
    hide RecKeys, Distinct, CoreInv, Acc;
    assert forall k :: k in s.cores[c].acks ==> Backed(s, k);
  }

  lemma StepAcks(cfg: Config, s: Sys, e: Event)
    requires Inv(cfg, s) && Enabled(cfg, s, e) && (e.ReadAck? || e.AcksDone?)
    ensures Inv(cfg, Step(cfg, s, e))
  {
    hide CoreInv, Inv, Acc, RecKeys, MarkOwned;
    var core := s.cores[e.c];
    CoreOk(cfg, s, e.c);
    if e.ReadAck? {
      var k := core.acks[0];
      ReadAckOwn(e.c, cfg[e.c], s.now, core, Acc(s));
      MarkKeeps(core.records, k.task, k.arrival);
      SameKeys(e.c, MarkOwned(core.records, k.task, k.arrival), core.records);
      QuietOwn(cfg, s, e.c, core.(records := MarkOwned(core.records, k.task, k.arrival),
                                  acks := core.acks[1..], oldAcks := LessOne(core.oldAcks)), s.arrived, Acc(s));
    } else {
      AcksBacked(cfg, s, e.c);
      AcksDoneOwn(e.c, cfg[e.c], s.now, core, Acc(s));
      QuietOwn(cfg, s, e.c, core.(pc := Offers, window := RecKeys(e.c, core.records)), s.arrived, Acc(s));
    }
  }

  lemma StepPc(cfg: Config, s: Sys, e: Event)
    requires Inv(cfg, s) && Enabled(cfg, s, e)
    requires e.Begin? || e.HomeDone? || e.OffersDone? || e.ServeDone? || e.Choose?
    ensures Inv(cfg, Step(cfg, s, e))
  {
    hide CoreInv, Inv, Acc, RecKeys, SleepAllowed;
    var c, core := e.c, s.cores[e.c];
    CoreOk(cfg, s, c);
    match e
    case Begin(_, newLevel) =>
      BeginOwn(c, cfg[c], s.now, core, Acc(s), newLevel);
      QuietOwn(cfg, s, c, Awaken(c, cfg[c], s.now, core, newLevel), s.arrived, Acc(s));
    case HomeDone(_) =>
      PcOwn(c, cfg[c], s.now, core, Acc(s), Drain);
      QuietOwn(cfg, s, c, core.(pc := Drain), s.arrived, Acc(s));
    case OffersDone(_) =>
      PcOwn(c, cfg[c], s.now, core, Acc(s), Serve);
      QuietOwn(cfg, s, c, core.(pc := Serve), s.arrived, Acc(s));
    case ServeDone(_) =>
      PcOwn(c, cfg[c], s.now, core, Acc(s), Rest);
      QuietOwn(cfg, s, c, core.(pc := Rest), s.arrived, Acc(s));
    case Choose(_, sleep) =>
      ChooseOwn(c, cfg[c], s.now, core, Acc(s), sleep);
      QuietOwn(cfg, s, c, Slept(core, sleep), s.arrived, Acc(s));
  }

  /** A new offer concerns an arrival nobody has been asked about. */
  lemma FreshKey(s: Sys, c: nat, k: Key)
    requires TrafficOk(s) && k.home == c < |s.cores| && s.now <= k.arrival && k !in RecKeys(c, s.cores[c].records)
    ensures forall d :: 0 <= d < |s.cores| ==> k !in s.cores[d].requests && k !in s.cores[d].acks
  {
    hide RecKeys, Distinct;
    assert !Backed(s, k);
  }

  /** One more request, for an arrival nobody has been asked about. */
  lemma MoreTraffic(s: Sys, s': Sys, to: nat, k: Key)
    requires TrafficOk(s) && |s'.cores| == |s.cores| && to < |s.cores|
    requires forall d :: 0 <= d < |s.cores| ==> k !in s.cores[d].requests && k !in s.cores[d].acks
    requires s'.cores[to].requests == s.cores[to].requests + [k]
    requires forall d :: 0 <= d < |s.cores| && d != to ==> s'.cores[d].requests == s.cores[d].requests
    requires forall d :: 0 <= d < |s.cores| ==> s'.cores[d].acks == s.cores[d].acks
    requires Backed(s', k) && forall x :: Backed(s, x) ==> Backed(s', x)
    ensures TrafficOk(s')
  {
    hide Backed;
    assert forall x :: x in s'.cores[to].requests <==> x in s.cores[to].requests || x == k;
  }

  lemma OfferTraffic(s: Sys, c: nat, task: nat, arrival: nat, to: nat)
    requires TrafficOk(s) && c < |s.cores| && to < |s.cores| && to != c && s.now < arrival
    requires Key(c, task, arrival) !in RecKeys(c, s.cores[c].records)
    ensures TrafficOk(OfferStep(s, c, task, arrival, to))
  {
    hide RecKeys, Insert, TrafficOk;
    var s', k := OfferStep(s, c, task, arrival, to), Key(c, task, arrival);
    FreshKey(s, c, k);
    InsertedKeys(c, s.cores[c].records, Rec(task, arrival, false));
    forall x | Backed(s, x) ensures Backed(s', x) {
    }
    MoreTraffic(s, s', to, k);
  }

  lemma StepOffer(cfg: Config, s: Sys, c: nat, task: nat, to: nat)
    requires Inv(cfg, s) && Enabled(cfg, s, OfferFuture(c, task, to))
    ensures Inv(cfg, OfferStep(s, c, task, NextMultiple(s.now, cfg[c][task].period), to))
  {
    hide CoreInv, TrafficOk, Acc, RecKeys, Insert, NextMultiple, Recorded;
    var core, arrival := s.cores[c], NextMultiple(s.now, cfg[c][task].period);
    var s' := OfferStep(s, c, task, arrival, to);
    CoreOk(cfg, s, c);
    CoreOk(cfg, s, to);
    OfferOwn(c, cfg[c], s.now, core, Acc(s), task, arrival);
    RequestsOwn(to, cfg[to], s.now, s.cores[to], Acc(s), s.cores[to].requests + [Key(c, task, arrival)],
        s.cores[to].oldRequests);
    OfferTraffic(s, c, task, arrival, to);
    AccGrows(s, s');
    forall d | 0 <= d < |s.cores| ensures CoreInv(d, cfg[d], s.now, s'.cores[d], Acc(s')) {
      MoreAccepted(d, cfg[d], s.now, s'.cores[d], Acc(s), Acc(s'));
    }
  }

  /** The request at the head of a queue is taken off it, and perhaps acknowledged at its home. */
  lemma LessTraffic(s: Sys, s': Sys, c: nat, home: nat, accepted: bool)
    requires TrafficOk(s) && |s'.cores| == |s.cores| && c < |s.cores| && home < |s.cores|
    requires s.cores[c].requests != [] && s.cores[c].requests[0].home == home
    requires s'.cores[c].requests == s.cores[c].requests[1..]
    requires forall d :: 0 <= d < |s.cores| && d != c ==> s'.cores[d].requests == s.cores[d].requests
    requires s'.cores[home].acks ==
             if accepted then s.cores[home].acks + [s.cores[c].requests[0]] else s.cores[home].acks
    requires forall d :: 0 <= d < |s.cores| && d != home ==> s'.cores[d].acks == s.cores[d].acks
    requires forall x :: Backed(s, x) ==> Backed(s', x)
    ensures TrafficOk(s')
  {
    hide Backed;
    var k := s.cores[c].requests[0];
    HeadOrTail(s.cores[c].requests);
    assert k in s.cores[c].requests && k !in s'.cores[c].requests;
    assert forall x :: x in s'.cores[home].acks <==> x in s.cores[home].acks || (accepted && x == k);
    assert forall d, x :: 0 <= d < |s.cores| && x in s'.cores[d].requests ==> x in s.cores[d].requests && x != k;
  }

  lemma ServeTraffic(s: Sys, c: nat, admissible: bool)
    requires TrafficOk(s) && c < |s.cores| && s.cores[c].requests != [] && s.cores[c].requests[0].home < |s.cores|
    ensures TrafficOk(ServeStep(s, c, admissible))
  {
    hide RecKeys, Insert, TrafficOk;
    var s', k := ServeStep(s, c, admissible), s.cores[c].requests[0];
    forall x | Backed(s, x) ensures Backed(s', x) {
    }
    LessTraffic(s, s', c, k.home, admissible && s.now < k.arrival);
  }

  lemma RequestFacts(s: Sys, c: nat)
    requires TrafficOk(s) && c < |s.cores| && s.cores[c].requests != []
    ensures var k := s.cores[c].requests[0];
            && k.home < |s.cores|
            && k !in s.cores[k.home].acks
            && (s.now <= k.arrival ==> k in RecKeys(k.home, s.cores[k.home].records))
  {
    hide RecKeys, Distinct;
    var k := s.cores[c].requests[0];
    assert k in s.cores[c].requests;
    assert Backed(s, k);
  }

  lemma StepServe(cfg: Config, s: Sys, c: nat, admissible: bool)
    requires Inv(cfg, s) && Enabled(cfg, s, ServeRequest(c, admissible))
    ensures Inv(cfg, ServeStep(s, c, admissible))
  {
    hide CoreInv, TrafficOk, Acc, RecKeys, Insert;
    var core := s.cores[c];
    var k, s' := core.requests[0], ServeStep(s, c, admissible);
    CoreOk(cfg, s, c);
    RequestFacts(s, c);
    ServeTraffic(s, c, admissible);
    InsertMembers(core.pending, k, KeyArrival);
    AccGrows(s, s');
    forall d | 0 <= d < |s.cores| ensures CoreInv(d, cfg[d], s.now, s'.cores[d], Acc(s')) {
      var mid := s.cores[d];
      MoreAccepted(d, cfg[d], s.now, mid, Acc(s), Acc(s'));
      if d == c {
        RequestsOwn(c, cfg[c], s.now, mid, Acc(s'), core.requests[1..], LessOne(core.oldRequests));
        mid := mid.(requests := core.requests[1..], oldRequests := LessOne(core.oldRequests));
        if admissible && s.now < k.arrival {
          AcceptOwn(c, cfg[c], s.now, mid, Acc(s'), k);
          mid := mid.(pending := Insert(core.pending, k, KeyArrival));
        }
      }
      if d == k.home && admissible && s.now < k.arrival {
        assert k in s'.cores[c].pending;
        AccHas(s', k);
        AckOwn(d, cfg[d], s.now, mid, Acc(s'), k);
      }
    }
  }

  lemma StepTick(cfg: Config, s: Sys)
    requires Inv(cfg, s) && Enabled(cfg, s, Tick)
    ensures Inv(cfg, Step(cfg, s, Tick))
  {
    hide CoreInv, Acc, RecKeys, TrafficOk;
    var s' := Step(cfg, s, Tick);
    AccGrows(s, s');
    forall d | 0 <= d < |s.cores| ensures CoreInv(d, cfg[d], s'.now, s'.cores[d], Acc(s')) {
      TickOwn(d, cfg[d], s.now, s.cores[d], Acc(s));
      MoreAccepted(d, cfg[d], s'.now, s'.cores[d], Acc(s), Acc(s'));
    }
    TickTraffic(s, s');
  }

  lemma TickTraffic(s: Sys, s': Sys)
    requires TrafficOk(s) && s'.now == s.now + 1 && |s'.cores| == |s.cores|
    requires forall d :: 0 <= d < |s.cores| ==> s'.cores[d] == NextTick(s.cores[d])
    ensures TrafficOk(s')
  {
    hide RecKeys, Distinct;
    assert forall d :: 0 <= d < |s.cores| ==>
                         s'.cores[d].requests == s.cores[d].requests && s'.cores[d].acks == s.cores[d].acks;
    forall k | Backed(s, k) ensures Backed(s', k) {
    }
  }

  lemma StepKeeps(cfg: Config, s: Sys, e: Event)
    requires Inv(cfg, s) && Enabled(cfg, s, e)
    ensures Inv(cfg, Step(cfg, s, e))
  {
    hide Inv, SleepAllowed, Recorded, NextMultiple, PendingStep, HomeStep, OfferStep, ServeStep;
    match e
    case PendingEntry(c) => StepPending(cfg, s, c);
    case HomeTask(c, task) => StepHome(cfg, s, c, task);
    case OfferFuture(c, task, to) => StepOffer(cfg, s, c, task, to);
    case ServeRequest(c, admissible) => StepServe(cfg, s, c, admissible);
    case ReadAck(_) => StepAcks(cfg, s, e);
    case AcksDone(_) => StepAcks(cfg, s, e);
    case Tick => StepTick(cfg, s);
    case _ => StepPc(cfg, s, e);
  }

  // ---- each step keeps homes informed -------------------------------------------------------

  /** Reading an acknowledgement makes the matching record owned. */
  lemma {:induction false} AckMarksOwned(records: seq<Rec>, task: nat, arrival: nat)
    requires exists r :: r in records && r.task == task && r.arrival == arrival
    ensures exists r :: r in MarkOwned(records, task, arrival) && Same(r, Rec(task, arrival, true)) && r.owned
  {
    HeadOrTail(records);
    if records[0].task == task && records[0].arrival == arrival {
      assert records[0].(owned := true) in MarkOwned(records, task, arrival);
    } else {
      AckMarksOwned(records[1..], task, arrival);
      assert forall r :: r in MarkOwned(records[1..], task, arrival) ==> r in MarkOwned(records, task, arrival);
    }
  }

  /** What a core did not know, or had not handled, it does not forget or undo; and what it newly lost
      has been accepted by nobody. */
  ghost predicate Onward(now: nat, d: nat, core: Core, core': Core, acc: iset<Key>) {
    && (forall k: Key :: k.home == d && Ahead(now, core', k) ==>
          Ahead(now, core, k) && (Known(core, k) ==> Known(core', k)))
    && (forall k :: k in core'.lost && k !in core.lost ==> k.home == d && !Ahead(now, core', k) && k !in acc)
  }

  /** A newly accepted arrival still lay ahead of its home, which now knows of it or has handled it. */
  ghost predicate Welcome(s: Sys, s': Sys, k: Key) {
    k.home < |s.cores| == |s'.cores| && Ahead(s.now, s.cores[k.home], k)
    && (Ahead(s'.now, s'.cores[k.home], k) ==> Known(s'.cores[k.home], k))
  }

  lemma ToldKept(s: Sys, s': Sys, acc: iset<Key>, acc': iset<Key>)
    requires Told(s, acc) && s'.now == s.now && |s'.cores| == |s.cores|
    requires forall d :: 0 <= d < |s.cores| ==> Onward(s.now, d, s.cores[d], s'.cores[d], acc')
    requires forall k :: k in acc' && k !in acc ==> Welcome(s, s', k)
    ensures Told(s', acc')
  {
    hide Ahead, Known;
    forall c, k | 0 <= c < |s.cores| && k in s'.cores[c].lost
      ensures k !in acc' && k.home == c && !Ahead(s.now, s'.cores[c], k)
    {
      assert Onward(s.now, c, s.cores[c], s'.cores[c], acc');
    }
    forall k | k in acc' && Ahead(s.now, s'.cores[k.home], k) ensures Known(s'.cores[k.home], k) {
      assert Onward(s.now, k.home, s.cores[k.home], s'.cores[k.home], acc');
    }
  }

  /** Only core `c` changes, and nothing is accepted. */
  lemma ToldAlone(s: Sys, s': Sys, c: nat)
    requires Told(s, Acc(s)) && s'.now == s.now && |s'.cores| == |s.cores| && c < |s.cores|
    requires forall d :: 0 <= d < |s.cores| && d != c ==> s'.cores[d] == s.cores[d]
    requires Onward(s.now, c, s.cores[c], s'.cores[c], Acc(s'))
    requires forall k :: k in Acc(s') ==> k in Acc(s)
    ensures Told(s', Acc(s'))
  {
    hide Told, Acc, Ahead, Known;
    ToldKept(s, s', Acc(s), Acc(s'));
  }

  ghost predicate Informed(s: Sys) {
    Told(s, Acc(s)) && Abroad(s)
  }

  lemma InformBegin(cfg: Config, s: Sys, c: nat, newLevel: nat)
    requires Informed(s) && c < |s.cores| && c < |cfg| && s.cores[c].pc == Start
    ensures Informed(SetCore(s, c, Awaken(c, cfg[c], s.now, s.cores[c], newLevel)))
  {
    var core, core' := s.cores[c], Awaken(c, cfg[c], s.now, s.cores[c], newLevel);
    var s' := SetCore(s, c, core');
    AccEqual(s, s');
    forall k | k in core'.lost && k !in core.lost ensures k !in Acc(s) {
      assert PassedUp(c, cfg[c], s.now, core, k);
      assert Ahead(s.now, core, k);
    }
    ToldAlone(s, s', c);
  }

  lemma AccEqual(s: Sys, s': Sys)
    requires |s'.cores| == |s.cores| && s'.arrived == s.arrived
    requires forall d :: 0 <= d < |s.cores| ==> s'.cores[d].pending == s.cores[d].pending
    ensures Acc(s') == Acc(s)
  {
    AccGrows(s, s');
    AccGrows(s', s);
  }

  /** A step of one core that accepts nothing and leaves its queues, its knowledge and what it has
      handled in place. */
  lemma InformQuiet(s: Sys, c: nat, core': Core)
    requires Informed(s) && c < |s.cores|
    requires core'.requests == s.cores[c].requests && core'.pending == s.cores[c].pending
    requires core'.lost == s.cores[c].lost
    requires Onward(s.now, c, s.cores[c], core', Acc(s))
    ensures Informed(SetCore(s, c, core'))
  {
    hide Told, Acc, Onward;
    var s' := SetCore(s, c, core');
    AccEqual(s, s');
    ToldAlone(s, s', c);
  }

  lemma InformPc(cfg: Config, s: Sys, e: Event)
    requires Informed(s) && Enabled(cfg, s, e)
    requires e.HomeDone? || e.OffersDone? || e.ServeDone? || e.Choose? || e.AcksDone?
    ensures Informed(Step(cfg, s, e))
  {
    hide Informed, SleepAllowed, Acc;
    var core := s.cores[e.c];
    match e
    case HomeDone(c) => InformQuiet(s, c, core.(pc := Drain));
    case AcksDone(c) => InformQuiet(s, c, core.(pc := Offers, window := RecKeys(c, core.records)));
    case OffersDone(c) => InformQuiet(s, c, core.(pc := Serve));
    case ServeDone(c) => InformQuiet(s, c, core.(pc := Rest));
    case Choose(c, sleep) => InformQuiet(s, c, Slept(core, sleep));
  }

  /** What an acknowledgement said, the record it marks says from now on. */
  lemma InformAck(cfg: Config, s: Sys, c: nat)
    requires Inv(cfg, s) && Informed(s) && c < |s.cores| && s.cores[c].acks != []
    ensures var core := s.cores[c];
            Informed(SetCore(s, c, core.(records := MarkOwned(core.records, core.acks[0].task, core.acks[0].arrival),
                                         acks := core.acks[1..], oldAcks := LessOne(core.oldAcks))))
  {
    hide Informed, Inv, Acc, RecKeys, MarkOwned;
    var core := s.cores[c];
    var k := core.acks[0];
    var core' := core.(records := MarkOwned(core.records, k.task, k.arrival), acks := core.acks[1..],
        oldAcks := LessOne(core.oldAcks));
    forall x: Key | x.home == c && Ahead(s.now, core', x) && Known(core, x) ensures Known(core', x) {
      if Rec(x.task, x.arrival, true) in core.records {
        MarksStay(core.records, k.task, k.arrival, Rec(x.task, x.arrival, true));
      } else if x == k {
        AcksBacked(cfg, s, c);
        BackedRecord(c, core.records, k);
        AckMarksOwned(core.records, k.task, k.arrival);
      } else {
        HeadOrTail(core.acks);
      }
    }
    InformQuiet(s, c, core');
  }

  lemma BackedRecord(c: nat, records: seq<Rec>, k: Key)
    requires k in RecKeys(c, records)
    ensures exists r :: r in records && r.task == k.task && r.arrival == k.arrival
  {
  }

  lemma InformPending(cfg: Config, s: Sys, c: nat)
    requires Informed(s) && c < |s.cores| && c < |cfg| && s.cores[c].pc.Pending?
    ensures Informed(PendingStep(cfg, s, c))
  {
    hide Told;
    var s' := PendingStep(cfg, s, c);
    var core, core' := s.cores[c], s'.cores[c];
    assert forall k :: k in core'.pending ==> k in core.pending;
    ToldAlone(s, s', c);
  }

  /** A release at home is new exactly in that the home handles it now. */
  lemma InformHome(cfg: Config, s: Sys, c: nat, task: nat)
    requires Inv(cfg, s) && Informed(s) && c < |s.cores| && c < |cfg| && s.cores[c].pc.Home?
    requires task in s.cores[c].pc.todo && task in cfg[c]
    ensures Informed(HomeStep(cfg, s, c, task))
  {
    hide Told, Scan, Inv;
    var s' := HomeStep(cfg, s, c, task);
    var core, core' := s.cores[c], s'.cores[c];
    forall k: Key | k.home == c && Ahead(s.now, core', k) && Known(core, k) ensures Known(core', k) {
      OwnedKept(cfg, s, c, task, k);
    }
    forall d | 0 <= d < |s.cores| ensures Onward(s.now, d, s.cores[d], s'.cores[d], Acc(s')) {
    }
    ToldKept(s, s', Acc(s), Acc(s'));
  }

  lemma OwnedKept(cfg: Config, s: Sys, c: nat, task: nat, k: Key)
    requires Inv(cfg, s) && c < |s.cores| && Known(s.cores[c], k) && s.now <= k.arrival
    ensures Known(s.cores[c].(records := Scan(s.cores[c].records, task, s.now).0), k)
  {
    hide Acc, Scan, Covered, PendingOk, WindowOk, Promised, HasOwned, TrafficOk;
    var records := s.cores[c].records;
    RecordFacts(cfg[c], s.now, s.cores[c].pc, records);
    var m := ScanDropsStale(records, task, s.now);
    if k !in s.cores[c].acks {
      var i :| 0 <= i < |records| && records[i] == Rec(k.task, k.arrival, true);
      assert records[m..][i - m] == records[i];
    }
  }

  lemma InformOffer(s: Sys, c: nat, task: nat, arrival: nat, to: nat)
    requires Informed(s) && c < |s.cores| && to < |s.cores| && to != c
    ensures Informed(OfferStep(s, c, task, arrival, to))
  {
    hide Told, Insert, Acc;
    var s' := OfferStep(s, c, task, arrival, to);
    AccEqual(s, s');
    InsertMembers(s.cores[c].records, Rec(task, arrival, false), RecArrival);
    ToldKept(s, s', Acc(s), Acc(s'));
  }

  /** A core that accepts a job tells its home in the same step. */
  lemma InformServe(s: Sys, c: nat, admissible: bool)
    requires Informed(s) && c < |s.cores| && s.cores[c].requests != [] && s.cores[c].requests[0].home < |s.cores|
    ensures Informed(ServeStep(s, c, admissible))
  {
    hide Told, Insert;
    var s', k := ServeStep(s, c, admissible), s.cores[c].requests[0];
    InsertMembers(s.cores[c].pending, k, KeyArrival);
    HeadOrTail(s.cores[c].requests);
    assert forall x :: x in s'.cores[c].pending ==>
                         x in s.cores[c].pending || (x == k && admissible && s.now < k.arrival);
    ToldKept(s, s', Acc(s), Acc(s'));
  }

  lemma InformTick(cfg: Config, s: Sys)
    requires Informed(s) && Enabled(cfg, s, Tick)
    ensures Informed(Step(cfg, s, Tick))
  {
    hide Acc;
    var s' := Step(cfg, s, Tick);
    AccEqual(s, s');
  }

  lemma StepInforms(cfg: Config, s: Sys, e: Event)
    requires Inv(cfg, s) && Informed(s) && Enabled(cfg, s, e)
    ensures Informed(Step(cfg, s, e))
  {
    hide Inv, Informed, SleepAllowed, Recorded, NextMultiple, PendingStep, HomeStep, OfferStep, ServeStep, Awaken;
    match e
    case Begin(c, newLevel) => InformBegin(cfg, s, c, newLevel);
    case PendingEntry(c) => InformPending(cfg, s, c);
    case HomeTask(c, task) => InformHome(cfg, s, c, task);
    case ReadAck(c) => InformAck(cfg, s, c);
    case OfferFuture(c, task, to) => InformOffer(s, c, task, NextMultiple(s.now, cfg[c][task].period), to);
    case ServeRequest(c, admissible) => InformServe(s, c, admissible);
    case Tick => InformTick(cfg, s);
    case _ => InformPc(cfg, s, e);
  }

  // ---- runs ---------------------------------------------------------------------------------

  ghost predicate Legal(cfg: Config, s: Sys, es: seq<Event>)
    decreases |es|
  {
    es == [] || (Enabled(cfg, s, es[0]) && Legal(cfg, Step(cfg, s, es[0]), es[1..]))
  }

  ghost function Run(cfg: Config, s: Sys, es: seq<Event>): Sys
    requires Legal(cfg, s, es)
    decreases |es|
  {
    if es == [] then s else Run(cfg, Step(cfg, s, es[0]), es[1..])
  }

  lemma {:induction false} RunKeeps(cfg: Config, s: Sys, es: seq<Event>)
    requires Inv(cfg, s) && Informed(s) && Legal(cfg, s, es)
    ensures Inv(cfg, Run(cfg, s, es)) && Informed(Run(cfg, s, es))
    decreases |es|
  {
    hide Inv, Informed, Step, Enabled;
    if es != [] {
      StepKeeps(cfg, s, es[0]);
      StepInforms(cfg, s, es[0]);
      RunKeeps(cfg, Step(cfg, s, es[0]), es[1..]);
    }
  }

  function Unused(level: nat): Core {
    Core(Start, level, Awake, 0, 0, [], [], [], 0, [], 0, {}, {})
  }

  function Initial(cfg: Config): Sys {
    Sys(0, seq(|cfg|, _ => Unused(0)), {})
  }

  lemma InitialInv(cfg: Config)
    ensures Inv(cfg, Initial(cfg)) && Informed(Initial(cfg))
  {
  }

  lemma Reached(cfg: Config, es: seq<Event>)
    requires Legal(cfg, Initial(cfg), es)
    ensures Inv(cfg, Run(cfg, Initial(cfg), es)) && Informed(Run(cfg, Initial(cfg), es))
  {
    hide Inv, Informed, Initial;
    InitialInv(cfg);
    RunKeeps(cfg, Initial(cfg), es);
  }

  // ---- every arrival is served, or its home slept through it --------------------------------

  /** In every run, with levels going up or down, a past arrival has released a job, at home or on a
      core that took it over, exactly if it is not recorded as lost. */
  lemma ServedExactly(cfg: Config, es: seq<Event>, c: nat, task: nat, t: nat)
    requires Legal(cfg, Initial(cfg), es) && c < |cfg| && task in cfg[c]
    requires cfg[c][task].period > 0 && t % cfg[c][task].period == 0
    requires var s := Run(cfg, Initial(cfg), es); c < |s.cores| && t < s.now
    ensures var s := Run(cfg, Initial(cfg), es);
            Key(c, task, t) in s.arrived <==> Key(c, task, t) !in s.cores[c].lost
  {
    hide Step, Initial, RecordsOk, WindowOk, TrafficOk, Abroad;
    Reached(cfg, es);
    var s := Run(cfg, Initial(cfg), es);
    var k := Key(c, task, t);
    assert Past(s.now, s.cores[c], task, cfg[c][task], t);
    forall d | 0 <= d < |s.cores| ensures k !in s.cores[d].pending {
      assert PendingOk(s.now, s.cores[d]);
    }
    if k in s.cores[c].lost {
      assert k !in Acc(s);
    }
  }

  /** An arrival becomes lost exactly if at its tick its home is asleep, chose that sleep at a level
      above the task, and no other core has released the job or holds it. */
  lemma LostExactly(cfg: Config, es: seq<Event>, c: nat, task: nat, newLevel: nat)
    requires Legal(cfg, Initial(cfg), es) && Enabled(cfg, Run(cfg, Initial(cfg), es), Begin(c, newLevel))
    requires task in cfg[c]
    requires cfg[c][task].period > 0 && Run(cfg, Initial(cfg), es).now % cfg[c][task].period == 0
    ensures var s := Run(cfg, Initial(cfg), es);
            var s' := Step(cfg, s, Begin(c, newLevel));
            var core, k := s.cores[c], Key(c, task, s.now);
            k in s'.cores[c].lost <==> Sleeping(core, s.now) && cfg[c][task].crit < core.chosen && k !in Acc(s)
  {
    hide Initial, RecordsOk, WindowOk, TrafficOk, Abroad, PendingOk, Covered, Acc;
    Reached(cfg, es);
    var s := Run(cfg, Initial(cfg), es);
    var core, k := s.cores[c], Key(c, task, s.now);
    assert Ahead(s.now, core, k);
    assert CoreInv(c, cfg[c], s.now, core, Acc(s));
    if Known(core, k) && k !in core.acks {
      assert Rec(k.task, k.arrival, true) in core.records;
    }
  }

  /** Hence every past arrival of a task at or above the highest level at which its core chose to
      sleep has released at least one job. */
  lemma ArrivalsServed(cfg: Config, es: seq<Event>, c: nat, task: nat, t: nat)
    requires Legal(cfg, Initial(cfg), es) && c < |cfg| && task in cfg[c]
    requires var s := Run(cfg, Initial(cfg), es);
             c < |s.cores| && Eligible(cfg[c][task], s.cores[c].top) && t < s.now
    requires t % cfg[c][task].period == 0
    ensures Key(c, task, t) in Run(cfg, Initial(cfg), es).arrived
  {
    hide Step, Initial, RecordsOk, WindowOk, TrafficOk, Abroad, Acc, Run, Legal, PendingOk, Promised;
    ServedExactly(cfg, es, c, task, t);
    Reached(cfg, es);
    assert CoreInv(c, cfg[c], Run(cfg, Initial(cfg), es).now, Run(cfg, Initial(cfg), es).cores[c],
        Acc(Run(cfg, Initial(cfg), es)));
  }

  /** No core's own level goes down in the run. */
  ghost predicate Rising(cfg: Config, s: Sys, es: seq<Event>)
    requires Legal(cfg, s, es)
    decreases |es|
  {
    es == [] || ((es[0].Begin? ==> s.cores[es[0].c].level <= es[0].newLevel)
        && Rising(cfg, Step(cfg, s, es[0]), es[1..]))
  }

  ghost predicate TopsReached(s: Sys) {
    forall c :: 0 <= c < |s.cores| ==> s.cores[c].top <= s.cores[c].level
  }

  lemma RiseKeepsTops(cfg: Config, s: Sys, e: Event)
    requires Enabled(cfg, s, e) && TopsReached(s) && (e.Begin? ==> s.cores[e.c].level <= e.newLevel)
    ensures TopsReached(Step(cfg, s, e))
  {
    hide SleepAllowed, Recorded, Scan, MarkOwned, Insert, RecKeys, NextMultiple, PassedUp;
  }

  lemma {:induction false} TopsStay(cfg: Config, s: Sys, es: seq<Event>)
    requires Legal(cfg, s, es) && Rising(cfg, s, es) && TopsReached(s)
    ensures TopsReached(Run(cfg, s, es))
    decreases |es|
  {
    hide Step, Enabled, TopsReached;
    if es != [] {
      RiseKeepsTops(cfg, s, es[0]);
      TopsStay(cfg, Step(cfg, s, es[0]), es[1..]);
    }
  }

  /** In a run in which no level goes down, every past arrival of a task at or above its core's
      present level has released at least one job. */
  lemma ServedWhenRising(cfg: Config, es: seq<Event>, c: nat, task: nat, t: nat)
    requires Legal(cfg, Initial(cfg), es) && Rising(cfg, Initial(cfg), es) && c < |cfg| && task in cfg[c]
    requires var s := Run(cfg, Initial(cfg), es);
             c < |s.cores| && Eligible(cfg[c][task], s.cores[c].level) && t < s.now
    requires t % cfg[c][task].period == 0
    ensures Key(c, task, t) in Run(cfg, Initial(cfg), es).arrived
  {
    hide Step, Run, Legal, Rising;
    TopsStay(cfg, Initial(cfg), es);
    ArrivalsServed(cfg, es, c, task, t);
  }

  /** Whenever a core skips one of its arrivals, or sleeps through it, the job has been released, or
      waits in the pending queue of another core, or is lost; the last only below the level at which
      the core chose to sleep. */
  lemma SkippedIsAccepted(cfg: Config, es: seq<Event>, c: nat, task: nat)
    requires Legal(cfg, Initial(cfg), es) && c < |cfg| && task in cfg[c]
    requires var s := Run(cfg, Initial(cfg), es);
             && c < |s.cores| && cfg[c][task].period > 0 && s.now % cfg[c][task].period == 0
             && (Handled(s.cores[c].pc, task)
                 || (s.cores[c].pc.Start? && Sleeping(s.cores[c], s.now) && s.cores[c].chosen <= cfg[c][task].crit))
    ensures var s, k := Run(cfg, Initial(cfg), es), Key(c, task, Run(cfg, Initial(cfg), es).now);
            || k in s.arrived
            || (exists d :: 0 <= d < |s.cores| && d != c && k in s.cores[d].pending)
            || (k in s.cores[c].lost && cfg[c][task].crit < s.cores[c].top)
  {
    hide Step, Initial, RecordsOk, WindowOk, TrafficOk, PendingOk, Promised, Told;
    Reached(cfg, es);
    var s := Run(cfg, Initial(cfg), es);
    assert Past(s.now, s.cores[c], task, cfg[c][task], s.now);
  }

  /** In every run, no pending job is ever missed: when the loop over the pending queue runs, the
      next job lies at or after the present tick, and no core sleeps past a pending job. */
  lemma NeverMissed(cfg: Config, es: seq<Event>, c: nat)
    requires Legal(cfg, Initial(cfg), es)
    requires c < |Run(cfg, Initial(cfg), es).cores|
    ensures var s := Run(cfg, Initial(cfg), es);
            && (forall k :: k in s.cores[c].pending ==> s.now <= k.arrival)
            && (s.cores[c].pc.Pending? ==> s.cores[c].pc.at == 0)
            && (forall k :: k in s.cores[c].pending && Sleeping(s.cores[c], s.now) ==>
                  s.cores[c].sleep.Until? && s.cores[c].sleep.tick <= k.arrival)
  {
    hide Step, Initial, RecordsOk, WindowOk, TrafficOk, Promised, Covered, Acc;
    Reached(cfg, es);
  }

  /** In every run, the delegation records of a core are sorted, at most one per task and arrival,
      none beyond the task's next period; before offers are made, one that is not stale at an
      arrival of its task is for that arrival; and acknowledgements not yet read never exceed the
      slots of their queue. */
  lemma BookkeepingBounded(cfg: Config, es: seq<Event>, c: nat)
    requires Legal(cfg, Initial(cfg), es) && c < |cfg|
    requires c < |Run(cfg, Initial(cfg), es).cores|
    ensures var s := Run(cfg, Initial(cfg), es);
            && Ordered(s.cores[c].records, RecArrival)
            && NoneSame(s.cores[c].records)
            && (forall r :: r in s.cores[c].records ==>
                  && r.task in cfg[c] && cfg[c][r.task].period > 0
                  && r.arrival <= NextMultiple(s.now, cfg[c][r.task].period)
                  && (Early(s.cores[c].pc) && s.now <= r.arrival && s.now % cfg[c][r.task].period == 0 ==>
                      r.arrival == s.now))
            && |s.cores[c].acks| <= CAPACITY
  {
    hide Step, Initial, TrafficOk, Covered, Acc, PendingOk, Ordered, NextMultiple;
    Reached(cfg, es);
    var s := Run(cfg, Initial(cfg), es);
    var core := s.cores[c];
    DistinctFew(core.acks, core.window);
    forall r | r in core.records
      ensures r.arrival <= NextMultiple(s.now, cfg[c][r.task].period)
      ensures Early(core.pc) && s.now <= r.arrival && s.now % cfg[c][r.task].period == 0 ==> r.arrival == s.now
    {
      var p := cfg[c][r.task].period;
      NextMultipleIs(s.now, p);
      if NextMultiple(s.now, p) < r.arrival {
        MultiplesApart(NextMultiple(s.now, p), r.arrival, p);
      }
      if Early(core.pc) && s.now <= r.arrival && s.now % p == 0 {
        NotStaleIsNow(cfg[c], s.now, core.pc, r);
      }
    }
  }

  /** In every run, when a core is about to acknowledge a job, the queue it writes to has a free
      slot, so the write does not wait. */
  lemma AckHasRoom(cfg: Config, es: seq<Event>, c: nat)
    requires Legal(cfg, Initial(cfg), es) && Enabled(cfg, Run(cfg, Initial(cfg), es), ServeRequest(c, true))
    requires var s := Run(cfg, Initial(cfg), es); s.now < s.cores[c].requests[0].arrival
    ensures var s := Run(cfg, Initial(cfg), es);
            |s.cores[s.cores[c].requests[0].home].acks| < CAPACITY
  {
    hide Step, Initial, Covered, PendingOk, RecordsOk, TrafficOk, RecKeys;
    Reached(cfg, es);
    var s := Run(cfg, Initial(cfg), es);
    var k := s.cores[c].requests[0];
    RequestFacts(s, c);
    CoreOk(cfg, s, k.home);
    var acks' := s.cores[k.home].acks + [k];
    DistinctFew(acks', s.cores[k.home].window);
  }

  // ---- one job or two -----------------------------------------------------------------------

  /** In every run, at an arrival of its task a core releases the job itself exactly if it has no
      owned record for that very arrival. */
  lemma ReleasedExactly(cfg: Config, es: seq<Event>, c: nat, task: nat)
    requires Legal(cfg, Initial(cfg), es) && Enabled(cfg, Run(cfg, Initial(cfg), es), HomeTask(c, task))
    requires cfg[c][task].period > 0 && Run(cfg, Initial(cfg), es).now % cfg[c][task].period == 0
    ensures var s := Run(cfg, Initial(cfg), es);
            HomeStep(cfg, s, c, task).arrived ==
            if Rec(task, s.now, true) in s.cores[c].records then s.arrived else s.arrived + {Key(c, task, s.now)}
  {
    hide Step, Initial, Inv, Informed, Scan;
    Reached(cfg, es);
    OwnedIsNow(cfg, Run(cfg, Initial(cfg), es), c, task);
  }

  /** In every run, a job waiting in a pending queue is there for another core, and its home, until it
      has come to the arrival itself, has an acknowledgement to read or an owned record for it. */
  lemma HomeIsTold(cfg: Config, es: seq<Event>, d: nat, k: Key)
    requires Legal(cfg, Initial(cfg), es)
    requires d < |Run(cfg, Initial(cfg), es).cores| && k in Run(cfg, Initial(cfg), es).cores[d].pending
    ensures var s := Run(cfg, Initial(cfg), es);
            && k.home < |s.cores| && k.home != d
            && (s.now < k.arrival || !Handled(s.cores[k.home].pc, k.task) ==>
                  k in s.cores[k.home].acks || Rec(k.task, k.arrival, true) in s.cores[k.home].records)
  {
    hide Step, Initial, RecordsOk, WindowOk, TrafficOk, Promised, Covered;
    Reached(cfg, es);
    var s := Run(cfg, Initial(cfg), es);
    assert PendingOk(s.now, s.cores[d]);
    assert k in Acc(s);
  }

  /** The home releases the job of the present tick although another core has released it already or
      holds it. */
  ghost predicate ReleasedTwice(cfg: Config, s: Sys, c: nat, task: nat)
    requires Enabled(cfg, s, HomeTask(c, task))
  {
    var k := Key(c, task, s.now);
    && !Scan(s.cores[c].records, task, s.now).1
    && (k in s.arrived || exists d :: 0 <= d < |s.cores| && d != c && k in s.cores[d].pending)
  }

  /** In every run, when a core handles an arrival of its own, the job is released twice exactly if an
      acknowledgement for it is still unread and no record for it is owned. */
  lemma TwoJobsExactly(cfg: Config, es: seq<Event>, c: nat, task: nat)
    requires Legal(cfg, Initial(cfg), es) && Enabled(cfg, Run(cfg, Initial(cfg), es), HomeTask(c, task))
    requires cfg[c][task].period > 0 && Run(cfg, Initial(cfg), es).now % cfg[c][task].period == 0
    ensures var s := Run(cfg, Initial(cfg), es);
            ReleasedTwice(cfg, s, c, task) <==>
            Key(c, task, s.now) in s.cores[c].acks && Rec(task, s.now, true) !in s.cores[c].records
  {
    hide Step, Initial, TrafficOk, Covered, PendingOk, Ordered, WindowOk, Scan;
    Reached(cfg, es);
    var s := Run(cfg, Initial(cfg), es);
    var core, k := s.cores[c], Key(c, task, s.now);
    CoreOk(cfg, s, c);
    OwnedIsNow(cfg, s, c, task);
    assert Ahead(s.now, core, k);
    assert k in core.acks ==> k in Acc(s);
    assert Acc(s) == iset x | x in s.arrived || exists d :: 0 <= d < |s.cores| && x in s.cores[d].pending;
  }

  /** The scan at an arrival ends early exactly if there is an owned record for this tick. */
  lemma OwnedIsNow(cfg: Config, s: Sys, c: nat, task: nat)
    requires Inv(cfg, s) && Enabled(cfg, s, HomeTask(c, task))
    requires cfg[c][task].period > 0 && s.now % cfg[c][task].period == 0
    ensures Scan(s.cores[c].records, task, s.now).1 <==> Rec(task, s.now, true) in s.cores[c].records
  {
    hide TrafficOk, Covered, Acc, PendingOk, Ordered, WindowOk, Promised, Scan;
    var core := s.cores[c];
    CoreOk(cfg, s, c);
    RecordFacts(cfg[c], s.now, core.pc, core.records);
    var _ := ScanDropsStale(core.records, task, s.now);
    if HasOwned(core.records, task, s.now) {
      var r :| r in core.records && r.task == task && s.now <= r.arrival && r.owned;
      NotStaleIsNow(cfg[c], s.now, core.pc, r);
      assert r == Rec(task, s.now, true);
    }
  }

  // ---- two runs -----------------------------------------------------------------------------

  /** One more event at the end of a run. */
  lemma {:induction false} Then(cfg: Config, s: Sys, es: seq<Event>, e: Event) returns (more: seq<Event>)
    requires Legal(cfg, s, es) && Enabled(cfg, Run(cfg, s, es), e)
    ensures Legal(cfg, s, more) && Run(cfg, s, more) == Step(cfg, Run(cfg, s, es), e)
    decreases |es|
  {
    hide Step, Enabled;
    if es == [] {
      more := [e];
      assert more[1..] == [];
    } else {
      var rest := Then(cfg, Step(cfg, s, es[0]), es[1..], e);
      more := [es[0]] + rest;
      assert more[1..] == rest;
    }
  }

  /** The arrivals of the tasks in `todo` at the present tick. */
  function Due(cfg: Config, c: nat, now: nat, todo: set<nat>): set<Key>
    requires c < |cfg|
  {
    set i | i in todo && i in cfg[c] && cfg[c][i].period > 0 && now % cfg[c][i].period == 0 :: Key(c, i, now)
  }

  ghost predicate NothingOwned(core: Core, now: nat) {
    forall task :: Scan(core.records, task, now) == (core.records, false)
  }

  lemma OneHomeTask(cfg: Config, s: Sys, c: nat, task: nat)
    requires c < |s.cores| && c < |cfg| && s.cores[c].pc.Home? && task in s.cores[c].pc.todo && task in cfg[c]
    requires NothingOwned(s.cores[c], s.now)
    ensures HomeStep(cfg, s, c, task) ==
            SetCore(s, c, s.cores[c].(pc := Home(s.cores[c].pc.todo - {task})))
              .(arrived := s.arrived + Due(cfg, c, s.now, {task}))
  {
    var core' := s.cores[c].(pc := Home(s.cores[c].pc.todo - {task}));
    assert core'.(records := s.cores[c].records) == core';
    var p := cfg[c][task].period;
    if p == 0 || s.now % p != 0 {
      assert Due(cfg, c, s.now, {task}) == {};
      assert s.arrived + {} == s.arrived;
    } else {
      assert Due(cfg, c, s.now, {task}) == {Key(c, task, s.now)};
    }
  }

  /** A core without owned records handles all its tasks. */
  lemma {:induction false} AllHome(cfg: Config, s0: Sys, es0: seq<Event>, c: nat) returns (es: seq<Event>)
    requires Legal(cfg, s0, es0)
    requires var s := Run(cfg, s0, es0);
             && c < |s.cores| && c < |cfg| && s.cores[c].pc.Home? && s.cores[c].pc.todo <= cfg[c].Keys
             && NothingOwned(s.cores[c], s.now)
    ensures Legal(cfg, s0, es)
    ensures var s := Run(cfg, s0, es0);
            Run(cfg, s0, es) ==
            SetCore(s, c, s.cores[c].(pc := Home({}))).(arrived := s.arrived + Due(cfg, c, s.now, s.cores[c].pc.todo))
    decreases Run(cfg, s0, es0).cores[c].pc.todo
  {
    hide Legal, Run, Scan, HomeStep;
    var s := Run(cfg, s0, es0);
    var todo := s.cores[c].pc.todo;
    if todo == {} {
      es := es0;
      assert Due(cfg, c, s.now, todo) == {} && s.arrived + {} == s.arrived;
      assert s.cores[c].(pc := Home({})) == s.cores[c] && s.cores[c := s.cores[c]] == s.cores;
    } else {
      var i :| i in todo;
      OneHomeTask(cfg, s, c, i);
      es := Then(cfg, s0, es0, HomeTask(c, i));
      es := AllHome(cfg, s0, es, c);
      assert Due(cfg, c, s.now, todo) == Due(cfg, c, s.now, {i}) + Due(cfg, c, s.now, todo - {i});
      var a, b, d := s.arrived, Due(cfg, c, s.now, {i}), Due(cfg, c, s.now, todo - {i});
      assert a + b + d == a + (b + d);
    }
  }

  /** An awake core without pending jobs or owned records begins its tick and releases what is due. */
  lemma Arrive(cfg: Config, s0: Sys, es0: seq<Event>, c: nat, level: nat) returns (es: seq<Event>)
    requires Legal(cfg, s0, es0)
    requires var s := Run(cfg, s0, es0);
             && c < |s.cores| && c < |cfg| && s.cores[c].pc == Start && s.cores[c].sleep == Awake
             && s.cores[c].pending == []
             && NothingOwned(s.cores[c], s.now)
    ensures Legal(cfg, s0, es)
    ensures var s := Run(cfg, s0, es0);
            Run(cfg, s0, es) ==
            SetCore(s, c, s.cores[c].(pc := Home({}), level := level))
              .(arrived := s.arrived + Due(cfg, c, s.now, cfg[c].Keys))
  {
    hide Legal, Run, Scan, NothingOwned;
    var s := Run(cfg, s0, es0);
    es := Then(cfg, s0, es0, Begin(c, level));
    es := Then(cfg, s0, es, PendingEntry(c));
    var t := Run(cfg, s0, es);
    assert t.cores[c] == s.cores[c].(level := level, pc := Home(cfg[c].Keys));
    assert NothingOwned(t.cores[c], t.now) by { StillNothing(s.cores[c], t.cores[c], s.now); }
    es := AllHome(cfg, s0, es, c);
  }

  lemma StillNothing(a: Core, b: Core, now: nat)
    requires NothingOwned(a, now) && a.records == b.records
    ensures NothingOwned(b, now)
  {
    hide Scan;
  }

  /** From the last of its own tasks to the offers, with nothing to read from earlier ticks. */
  lemma ToOffers(cfg: Config, s0: Sys, es0: seq<Event>, c: nat) returns (es: seq<Event>)
    requires Legal(cfg, s0, es0)
    requires var s := Run(cfg, s0, es0);
             c < |s.cores| && c < |cfg| && s.cores[c].pc == Home({}) && s.cores[c].oldAcks == 0
    ensures Legal(cfg, s0, es)
    ensures var s := Run(cfg, s0, es0);
            Run(cfg, s0, es) == SetCore(s, c, s.cores[c].(pc := Offers, window := RecKeys(c, s.cores[c].records)))
  {
    hide Legal, Run, RecKeys;
    var s := Run(cfg, s0, es0);
    es := Then(cfg, s0, es0, HomeDone(c));
    es := Then(cfg, s0, es, AcksDone(c));
  }

  /** From the requests to the end of the tick. */
  lemma ToDone(cfg: Config, s0: Sys, es0: seq<Event>, c: nat, sleep: Sleep) returns (es: seq<Event>)
    requires Legal(cfg, s0, es0)
    requires var s := Run(cfg, s0, es0);
             && c < |s.cores| && c < |cfg| && s.cores[c].pc == Serve && s.cores[c].oldRequests == 0
             && SleepAllowed(cfg[c], s.cores[c], s.now, sleep)
    ensures Legal(cfg, s0, es)
    ensures var s := Run(cfg, s0, es0);
            Run(cfg, s0, es) == SetCore(s, c, Slept(s.cores[c], sleep))
  {
    hide Legal, Run;
    var s := Run(cfg, s0, es0);
    es := Then(cfg, s0, es0, ServeDone(c));
    es := Then(cfg, s0, es, Choose(c, sleep));
  }

  /** A core with nothing to read from earlier ticks ends its tick without offering anything. */
  lemma Rests(cfg: Config, s0: Sys, es0: seq<Event>, c: nat, sleep: Sleep) returns (es: seq<Event>)
    requires Legal(cfg, s0, es0)
    requires var s := Run(cfg, s0, es0);
             && c < |s.cores| && c < |cfg| && s.cores[c].pc == Home({})
             && s.cores[c].oldAcks == 0 == s.cores[c].oldRequests
             && SleepAllowed(cfg[c], s.cores[c], s.now, sleep)
    ensures Legal(cfg, s0, es)
    ensures var s := Run(cfg, s0, es0);
            Run(cfg, s0, es) == SetCore(s, c, Slept(s.cores[c].(window := RecKeys(c, s.cores[c].records)), sleep))
  {
    hide Legal, Run, RecKeys;
    es := ToOffers(cfg, s0, es0, c);
    es := Then(cfg, s0, es, OffersDone(c));
    es := ToDone(cfg, s0, es, c, sleep);
  }

  /** Two cores: tasks 1 and 3 belong to the first, task 2 to the second. */
  function TwoCores(): Config {
    [map[1 := TaskInfo(10, 1), 3 := TaskInfo(50, 2)], map[2 := TaskInfo(50, 2)]]
  }

  function Pair(now: nat, a: Core, b: Core, arrived: set<Key>): Sys {
    Sys(now, [a, b], arrived)
  }

  lemma NoneDue(now: nat)
    requires 0 < now < 50
    ensures now % 10 != 0 ==> Due(TwoCores(), 0, now, TwoCores()[0].Keys) == {}
    ensures Due(TwoCores(), 1, now, TwoCores()[1].Keys) == {}
  {
  }

  lemma AllDue()
    ensures Due(TwoCores(), 0, 0, TwoCores()[0].Keys) == {Key(0, 1, 0), Key(0, 3, 0)}
    ensures Due(TwoCores(), 1, 0, TwoCores()[1].Keys) == {Key(1, 2, 0)}
  {
  }

  lemma NoRecords(core: Core, now: nat)
    requires core.records == []
    ensures NothingOwned(core, now)
  {
  }

  /** The second core has a tick in which it neither accepts nor offers. */
  lemma SecondTurn(s0: Sys, es0: seq<Event>, now: nat, a: Core, arrived: set<Key>, was: nat, level: nat)
    returns (es: seq<Event>)
    requires Legal(TwoCores(), s0, es0) && Run(TwoCores(), s0, es0) == Pair(now, a, Unused(was), arrived)
    requires now < 50
    ensures Legal(TwoCores(), s0, es)
    ensures Run(TwoCores(), s0, es) ==
            Pair(now, a, Unused(level).(pc := Done), if now == 0 then arrived + {Key(1, 2, 0)} else arrived)
  {
    hide Legal, Run, Due;
    var cfg := TwoCores();
    NoRecords(Unused(was), now);
    AllDue();
    es := Arrive(cfg, s0, es0, 1, level);
    if now > 0 {
      NoneDue(now);
      assert arrived + {} == arrived;
    }
    assert RecKeys(1, []) == {};
    es := Rests(cfg, s0, es, 1, Awake);
    assert [a, Unused(was)][1 := Unused(level).(pc := Done)] == [a, Unused(level).(pc := Done)];
  }

  lemma Ticks(s0: Sys, es0: seq<Event>, now: nat, a: Core, b: Core, arrived: set<Key>) returns (es: seq<Event>)
    requires Legal(TwoCores(), s0, es0) && Run(TwoCores(), s0, es0) == Pair(now, a, b, arrived)
    requires a.pc == Done && b.pc == Done
    ensures Legal(TwoCores(), s0, es) && Run(TwoCores(), s0, es) == Pair(now + 1, NextTick(a), NextTick(b), arrived)
  {
    hide Legal, Run;
    es := Then(TwoCores(), s0, es0, Tick);
  }

  /** The first core has a tick in which it offers nothing. */
  lemma FirstTurn(s0: Sys, es0: seq<Event>, now: nat, b: Core, arrived: set<Key>, level: nat, sleep: Sleep)
    returns (es: seq<Event>)
    requires Legal(TwoCores(), s0, es0) && Run(TwoCores(), s0, es0) == Pair(now, Unused(0), b, arrived)
    requires now < 10 && SleepAllowed(TwoCores()[0], Unused(level), now, sleep)
    ensures Legal(TwoCores(), s0, es)
    ensures Run(TwoCores(), s0, es) ==
            Pair(now, Slept(Unused(level), sleep), b,
                 if now == 0 then arrived + {Key(0, 1, 0), Key(0, 3, 0)} else arrived)
  {
    hide Legal, Run, Due;
    var cfg := TwoCores();
    NoRecords(Unused(0), now);
    AllDue();
    es := Arrive(cfg, s0, es0, 0, level);
    if now > 0 {
      NoneDue(now);
      assert arrived + {} == arrived;
    }
    assert RecKeys(0, []) == {};
    es := Rests(cfg, s0, es, 0, sleep);
    assert [Unused(0), b][0 := Slept(Unused(level), sleep)] == [Slept(Unused(level), sleep), b];
  }

  const BEGUN: set<Key> := {Key(0, 1, 0), Key(0, 3, 0), Key(1, 2, 0)}

  /** Up to tick 9 nothing is offered; each task has released its first job. */
  lemma {:induction false} QuietTicks(now: nat) returns (es: seq<Event>)
    requires now < 10
    ensures Legal(TwoCores(), Initial(TwoCores()), es)
    ensures Run(TwoCores(), Initial(TwoCores()), es) == Pair(now, Unused(0), Unused(0), if now == 0 then {} else BEGUN)
  {
    hide Run;
    var s0 := Initial(TwoCores());
    if now == 0 {
      es := [];
      assert Run(TwoCores(), s0, []) == s0 by { RunNone(TwoCores(), s0); }
    } else {
      es := QuietTicks(now - 1);
      var arrived := if now == 1 then {} else BEGUN;
      es := FirstTurn(s0, es, now - 1, Unused(0), arrived, 0, Awake);
      assert {} + {Key(0, 1, 0), Key(0, 3, 0)} + {Key(1, 2, 0)} == BEGUN;
      arrived := if now == 1 then {Key(0, 1, 0), Key(0, 3, 0)} else arrived;
      es := SecondTurn(s0, es, now - 1, Unused(0).(pc := Done), arrived, 0, 0);
      es := Ticks(s0, es, now - 1, Unused(0).(pc := Done), Unused(0).(pc := Done), BEGUN);
    }
  }

  lemma RunNone(cfg: Config, s: Sys)
    ensures Legal(cfg, s, []) && Run(cfg, s, []) == s
  {
  }

  /** The first core after it has offered the job of tick 10. */
  function Offered(pc: Pc): Core {
    Unused(0).(pc := pc, records := [Rec(1, 10, false)], window := {Key(0, 1, 10)})
  }

  lemma SetPair(now: nat, a: Core, b: Core, arrived: set<Key>, x: Core)
    ensures SetCore(Pair(now, a, b, arrived), 0, x) == Pair(now, x, b, arrived)
    ensures SetCore(Pair(now, a, b, arrived), 1, x) == Pair(now, a, x, arrived)
  {
  }

  lemma OfferIs(b: Core, arrived: set<Key>)
    requires b.requests == []
    ensures var s := Pair(9, Unused(0).(pc := Offers), b, arrived);
            && Enabled(TwoCores(), s, OfferFuture(0, 1, 1))
            && OfferStep(s, 0, 1, NextMultiple(9, 10), 1)
               == Pair(9, Offered(Offers), b.(requests := [Key(0, 1, 10)]), arrived)
  {
    assert {} + {Key(0, 1, 10)} == {Key(0, 1, 10)} && [] + [Key(0, 1, 10)] == [Key(0, 1, 10)];
    assert NextMultiple(9, 10) == 10;
  }

  lemma AcceptIs(a: Core, k: Key, arrived: set<Key>)
    requires a.acks == [] && k.home == 0 && 9 < k.arrival
    ensures ServeStep(Pair(9, a, Unused(0).(pc := Serve, requests := [k]), arrived), 1, true) ==
            Pair(9, a.(acks := [k]), Unused(0).(pc := Serve, pending := [k]), arrived)
  {
    assert [k][1..] == [] && [] + [k] == [k] && Insert([], k, KeyArrival) == [k];
  }

  /** At tick 9 the first core has read its acknowledgements when it offers the job of tick 10. */
  lemma Offers10(s0: Sys, es0: seq<Event>) returns (es: seq<Event>)
    requires Legal(TwoCores(), s0, es0) && Run(TwoCores(), s0, es0) == Pair(9, Unused(0), Unused(0), BEGUN)
    ensures Legal(TwoCores(), s0, es)
    ensures Run(TwoCores(), s0, es) == Pair(9, Offered(Done), Unused(0).(requests := [Key(0, 1, 10)]), BEGUN)
  {
    hide Legal, Run, Due, OfferStep, NextMultiple, Recorded;
    var cfg := TwoCores();
    assert RecKeys(0, []) == {};
    NoRecords(Unused(0), 9);
    NoneDue(9);
    es := Arrive(cfg, s0, es0, 0, 0);
    assert BEGUN + {} == BEGUN;
    es := ToOffers(cfg, s0, es, 0);
    SetPair(9, Unused(0), Unused(0), BEGUN, Unused(0).(pc := Home({})));
    SetPair(9, Unused(0).(pc := Home({})), Unused(0), BEGUN, Unused(0).(pc := Offers));
    OfferIs(Unused(0), BEGUN);
    var asked := Unused(0).(requests := [Key(0, 1, 10)]);
    assert Run(cfg, s0, es) == Pair(9, Unused(0).(pc := Offers), Unused(0), BEGUN);
    es := Then(cfg, s0, es, OfferFuture(0, 1, 1));
    assert Run(cfg, s0, es) == Pair(9, Offered(Offers), asked, BEGUN);
    es := Then(cfg, s0, es, OffersDone(0));
    SetPair(9, Offered(Offers), asked, BEGUN, Offered(Serve));
    es := ToDone(cfg, s0, es, 0, Awake);
    SetPair(9, Offered(Serve), asked, BEGUN, Offered(Done));
  }

  /** The second core accepts it in the same tick. */
  lemma Accepts10(s0: Sys, es0: seq<Event>) returns (es: seq<Event>)
    requires Legal(TwoCores(), s0, es0)
    requires Run(TwoCores(), s0, es0) == Pair(9, Offered(Done), Unused(0).(requests := [Key(0, 1, 10)]), BEGUN)
    ensures Legal(TwoCores(), s0, es)
    ensures Run(TwoCores(), s0, es) ==
            Pair(9, Offered(Done).(acks := [Key(0, 1, 10)]), Unused(0).(pc := Done, pending := [Key(0, 1, 10)]), BEGUN)
  {
    hide Legal, Run, Due, ServeStep;
    var cfg, k := TwoCores(), Key(0, 1, 10);
    NoRecords(Unused(0).(requests := [k]), 9);
    NoneDue(9);
    es := Arrive(cfg, s0, es0, 1, 0);
    assert BEGUN + {} == BEGUN;
    es := ToOffers(cfg, s0, es, 1);
    assert RecKeys(1, []) == {};
    es := Then(cfg, s0, es, OffersDone(1));
    var a, b := Offered(Done), Unused(0).(pc := Serve, requests := [k]);
    SetPair(9, a, Unused(0).(requests := [k]), BEGUN, b);
    AcceptIs(a, k, BEGUN);
    assert Run(cfg, s0, es) == Pair(9, a, b, BEGUN);
    es := Then(cfg, s0, es, ServeRequest(1, true));
    assert Run(cfg, s0, es) == Pair(9, a.(acks := [k]), Unused(0).(pc := Serve, pending := [k]), BEGUN);
    es := ToDone(cfg, s0, es, 1, Awake);
    SetPair(9, a.(acks := [k]), Unused(0).(pc := Serve, pending := [k]), BEGUN, Unused(0).(pc := Done, pending := [k]));
  }

  /** A job may be released twice: its home reads acknowledgements only after it has handled the
      arrivals of the tick. There is a run in which the home has released the job of tick 10 while it
      waits, due, in the pending queue of the core that accepted it at tick 9. */
  lemma LateAckGivesTwoJobs() returns (es: seq<Event>)
    ensures var cfg, k := TwoCores(), Key(0, 1, 10);
            && Legal(cfg, Initial(cfg), es)
            && var s := Run(cfg, Initial(cfg), es);
               |s.cores| == 2 && k in s.arrived && k in s.cores[1].pending && k.arrival == s.now
  {
    hide Legal, Run, Due;
    var cfg, k, s0 := TwoCores(), Key(0, 1, 10), Initial(TwoCores());
    es := QuietTicks(9);
    es := Offers10(s0, es);
    es := Accepts10(s0, es);
    var a, b := Offered(Done).(acks := [k]), Unused(0).(pc := Done, pending := [k]);
    es := Ticks(s0, es, 9, a, b, BEGUN);
    assert NothingOwned(NextTick(a), 10) by { NoOwned(10); }
    es := Arrive(cfg, s0, es, 0, 0);
    assert k in Due(cfg, 0, 10, cfg[0].Keys) by { TenIsDue(); }
  }

  lemma NoOwned(now: nat)
    requires now == 10
    ensures forall task :: Scan([Rec(1, 10, false)], task, now) == ([Rec(1, 10, false)], false)
  {
    forall task ensures Scan([Rec(1, 10, false)], task, now) == ([Rec(1, 10, false)], false) {
      NothingStale([Rec(1, 10, false)], task, now);
    }
  }

  lemma TenIsDue()
    ensures Key(0, 1, 10) in Due(TwoCores(), 0, 10, TwoCores()[0].Keys)
  {
    assert 10 % TwoCores()[0][1].period == 0;
  }

  /** The first core while it sleeps until tick 11, having chosen so at level 2. */
  function Asleep(level: nat, lost: set<Key>): Core {
    Unused(level).(sleep := Until(11), chosen := 2, top := 2, lost := lost)
  }

  /** It looks out for task 3 only, whose next job is due at tick 50. */
  lemma MaySleep()
    ensures SleepAllowed(TwoCores()[0], Unused(2), 1, Until(11))
  {
    assert NextArrival(Unused(2), 3, TaskInfo(50, 2), 1) == 50;
  }

  lemma AwakenAsleep(now: nat, was: nat)
    requires 1 < now < 11
    ensures Awaken(0, TwoCores()[0], now, Asleep(was, {}), 1) ==
            Asleep(1, if now == 10 then {Key(0, 1, 10)} else {}).(pc := Done)
  {
    var tasks, core := TwoCores()[0], Asleep(was, {});
    var passed := set i | i in tasks && PassedUp(0, tasks, now, core, Key(0, i, now)) :: Key(0, i, now);
    if now == 10 {
      assert PassedUp(0, tasks, now, core, Key(0, 1, 10));
    }
    assert passed == if now == 10 then {Key(0, 1, 10)} else {};
    assert {} + passed == passed;
  }

  /** From tick 2 on the level is 1 again, and the first core still sleeps. */
  lemma {:induction false} SleepyTicks(now: nat) returns (es: seq<Event>)
    requires 2 <= now <= 11
    ensures Legal(TwoCores(), Initial(TwoCores()), es)
    ensures Run(TwoCores(), Initial(TwoCores()), es) ==
            Pair(now, Asleep(if now == 2 then 2 else 1, if now == 11 then {Key(0, 1, 10)} else {}), Unused(1), BEGUN)
  {
    hide Run, Awaken;
    var cfg, s0 := TwoCores(), Initial(TwoCores());
    if now == 2 {
      es := QuietTicks(1);
      MaySleep();
      es := FirstTurn(s0, es, 1, Unused(0), BEGUN, 2, Until(11));
      es := SecondTurn(s0, es, 1, Asleep(2, {}).(pc := Done), BEGUN, 0, 1);
      es := Ticks(s0, es, 1, Asleep(2, {}).(pc := Done), Unused(1).(pc := Done), BEGUN);
    } else {
      es := SleepyTicks(now - 1);
      var was, lost := if now == 3 then 2 else 1, if now == 11 then {Key(0, 1, 10)} else {};
      AwakenAsleep(now - 1, was);
      es := Then(cfg, s0, es, Begin(0, 1));
      assert [Asleep(was, {}), Unused(1)][0 := Asleep(1, lost).(pc := Done)] ==
          [Asleep(1, lost).(pc := Done), Unused(1)];
      es := SecondTurn(s0, es, now - 1, Asleep(1, lost).(pc := Done), BEGUN, 1, 1);
      es := Ticks(s0, es, now - 1, Asleep(1, lost).(pc := Done), Unused(1).(pc := Done), BEGUN);
    }
  }

  /** An arrival can be lost when a level goes down: the core has chosen to sleep at level 2, without
      looking out for a task of level 1, and sleeps through its arrival when the level is 1 again. */
  lemma LoweredLevelLosesArrival() returns (es: seq<Event>)
    ensures var cfg, k := TwoCores(), Key(0, 1, 10);
            && Legal(cfg, Initial(cfg), es)
            && var s := Run(cfg, Initial(cfg), es);
               |s.cores| == 2 && k.arrival < s.now && Eligible(cfg[0][1], s.cores[0].level) && k !in s.arrived
  {
    hide Legal, Run;
    es := SleepyTicks(11);
  }

  // ---- choosing when to wake up -------------------------------------------------------------

  /** An arrival the core has to be awake for: of a pending job, or of one of its own tasks. */
  ghost predicate Candidate(tasks: map<nat, TaskInfo>, core: Core, now: nat, t: nat) {
    || (exists k :: k in core.pending && now < k.arrival && k.arrival == t)
    || (exists i :: i in tasks && Eligible(tasks[i], core.level) && NextArrival(core, i, tasks[i], now) == t)
  }

  /** The next arrival the core has to be awake for, if there is one. */
  ghost predicate NextEffective(tasks: map<nat, TaskInfo>, core: Core, now: nat, next: Option<nat>) {
    match next
    case None => forall t :: !Candidate(tasks, core, now, t)
    case Some(m) => Candidate(tasks, core, now, m) && forall t :: Candidate(tasks, core, now, t) ==> m <= t
  }

  method NextPending(core: Core, now: nat) returns (next: Option<nat>)
    ensures next.None? ==> forall k :: k in core.pending ==> k.arrival <= now
    ensures next.Some? ==> exists k :: k in core.pending && now < k.arrival && k.arrival == next.value
    ensures next.Some? ==> forall k :: k in core.pending && now < k.arrival ==> next.value <= k.arrival
  {
    next := None;
    for x := 0 to |core.pending|
      invariant next.None? ==> forall y :: 0 <= y < x ==> core.pending[y].arrival <= now
      invariant next.Some? ==> exists k :: k in core.pending && now < k.arrival && k.arrival == next.value
      invariant next.Some? ==> forall y :: 0 <= y < x && now < core.pending[y].arrival ==>
                  next.value <= core.pending[y].arrival
    {
      var a := core.pending[x].arrival;
      if now < a && (next.None? || a < next.value) {
        next := Some(a);
        assert core.pending[x] in core.pending;
      }
    }
  }

  method NextOwn(core: Core, task: nat, info: TaskInfo, now: nat) returns (next: nat)
    requires info.period > 0
    ensures next == NextArrival(core, task, info, now)
  {
    next := now + (info.period - now % info.period);
    ghost var first := next;
    for x := 0 to |core.records|
      invariant NextFor(core.records, task, info.period, first) == NextFor(core.records[x..], task, info.period, next)
    {
      var r := core.records[x];
      assert core.records[x..] == [r] + core.records[x + 1..];
      if r.arrival == next && r.task == task && r.owned {
        next := next + info.period;
      }
    }
  }

  /** The search over the pending queue and the core's tasks. */
  method NextEffectiveArrival(alloc: seq<nat>, tasks: map<nat, TaskInfo>, core: Core, now: nat)
    returns (next: Option<nat>)
    requires forall i :: i in alloc <==> i in tasks
    ensures NextEffective(tasks, core, now, next)
  {
    next := NextPending(core, now);
    for x := 0 to |alloc|
      invariant next.Some? ==> Candidate(tasks, core, now, next.value)
      invariant forall k :: k in core.pending && now < k.arrival ==> next.Some? && next.value <= k.arrival
      invariant forall y :: 0 <= y < x && Eligible(tasks[alloc[y]], core.level) ==>
                  next.Some? && next.value <= NextArrival(core, alloc[y], tasks[alloc[y]], now)
    {
      var i := alloc[x];
      assert i in alloc;
      if tasks[i].period > 0 && tasks[i].crit >= core.level {
        var own := NextOwn(core, i, tasks[i], now);
        if next.None? || own < next.value {
          next := Some(own);
        }
      }
    }
  }

  /** The sleep interval an idle core enters; a core that is not idle stays awake. Whatever is
      chosen, the core does not sleep past an arrival it has to be awake for. */
  method DpmInterval(tasks: map<nat, TaskInfo>, core: Core, now: nat, idle: bool, next: Option<nat>)
    returns (sleep: Sleep)
    requires NextEffective(tasks, core, now, next)
    ensures SleepAllowed(tasks, core, now, sleep)
    ensures idle && next.None? ==> sleep == Forever
    ensures idle && next.Some? ==> sleep == if now + 6 <= next.value then Until(next.value) else Awake
    ensures !idle ==> sleep == Awake
  {
    CandidatesAhead(tasks, core, now);
    if !idle {
      return Awake;
    }
    if next.None? || next.value <= now {
      NoCandidates(tasks, core, now);
      return Forever;
    }
    if next.value - now >= SLEEP_THRESHOLD {
      return Until(next.value);
    }
    return Awake;
  }

  /** Putting off the running job, if the next arrival and the slack leave at least six ticks: the core sleeps
      as many whole ticks as the slack allows, but not past an arrival. */
  method Procrastinate(tasks: map<nat, TaskInfo>, core: Core, now: nat, next: Option<nat>, minSlack: real,
                       running: bool)
    returns (deferred: bool, sleep: Sleep)
    requires NextEffective(tasks, core, now, next)
    ensures SleepAllowed(tasks, core, now, sleep)
    ensures deferred <==> running && next.Some? && now + 6 <= next.value && 6.0 <= minSlack
    ensures deferred ==>
              && sleep.Until? && now + 6 <= sleep.tick <= next.value && (sleep.tick - now) as real <= minSlack
              && (sleep.tick == next.value || (sleep.tick + 1 - now) as real > minSlack)
    ensures !deferred ==> sleep == Awake
  {
    CandidatesAhead(tasks, core, now);
    if next.None? || next.value - now < SLEEP_THRESHOLD || minSlack < SLEEP_THRESHOLD as real || !running {
      return false, Awake;
    }
    var ahead := (next.value - now) as real;
    var deferrable := if minSlack < ahead then minSlack else ahead;
    return true, Until(now + deferrable.Floor);
  }

  lemma CandidatesAhead(tasks: map<nat, TaskInfo>, core: Core, now: nat)
    ensures forall t :: Candidate(tasks, core, now, t) ==> now < t
    ensures forall k :: k in core.pending && now < k.arrival ==> Candidate(tasks, core, now, k.arrival)
    ensures forall i :: i in tasks && Eligible(tasks[i], core.level) ==>
              Candidate(tasks, core, now, NextArrival(core, i, tasks[i], now))
  {
    forall i | i in tasks && Eligible(tasks[i], core.level) ensures now < NextArrival(core, i, tasks[i], now) {
      NextForGrows(core.records, i, tasks[i].period, now + (tasks[i].period - now % tasks[i].period));
    }
  }

  lemma {:induction false} NextForGrows(records: seq<Rec>, task: nat, period: nat, next: nat)
    ensures next <= NextFor(records, task, period, next)
  {
    if records != [] {
      NextForGrows(records[1..], task, period, next);
      NextForGrows(records[1..], task, period, next + period);
    }
  }

  lemma NoCandidates(tasks: map<nat, TaskInfo>, core: Core, now: nat)
    requires forall t :: !Candidate(tasks, core, now, t)
    ensures SleepAllowed(tasks, core, now, Forever)
  {
    CandidatesAhead(tasks, core, now);
  }
}
