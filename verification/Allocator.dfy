/** Placement of all tasks and their replicas on the processors. */
module Allocator {
  import opened Common
  import Numbers
  import opened Demand
  import opened Search
  import opened TuneMode
  import opened Tuner

  /** A task to be placed together with the number of replicas it needs. */
  datatype Request = Request(spec: TaskSpec, replicas: nat)

  predicate HasId(ts: seq<Task>, id: nat) {
    exists t :: t in ts && t.spec.id == id
  }

  class Processor {
    const id: nat
    const cores: seq<Core>

    constructor (id: nat, cores: seq<Core>)
      ensures this.id == id && this.cores == cores
    {
      this.id, this.cores := id, cores;
    }

    method ContainsTaskPrimary(taskId: nat) returns (found: bool)
      ensures found <==> exists c :: c in cores && HasId(c.primaries, taskId)
    {
      for i := 0 to |cores|
        invariant forall k :: 0 <= k < i ==> !HasId(cores[k].primaries, taskId)
      {
        var ts := cores[i].primaries;
        for j := 0 to |ts|
          invariant forall k :: 0 <= k < j ==> ts[k].spec.id != taskId
        {
          if ts[j].spec.id == taskId {
            assert ts[j] in cores[i].primaries && cores[i] in cores;
            return true;
          }
        }
      }
      return false;
    }

    method ContainsTaskReplica(taskId: nat) returns (found: bool)
      ensures found <==> exists c :: c in cores && HasId(c.replicas, taskId)
    {
      for i := 0 to |cores|
        invariant forall k :: 0 <= k < i ==> !HasId(cores[k].replicas, taskId)
      {
        var ts := cores[i].replicas;
        for j := 0 to |ts|
          invariant forall k :: 0 <= k < j ==> ts[k].spec.id != taskId
        {
          if ts[j].spec.id == taskId {
            assert ts[j] in cores[i].replicas && cores[i] in cores;
            return true;
          }
        }
      }
      return false;
    }
  }

  // ---- where a task is ----------------------------------------------------------------------

  /** The cores that hold the primary of a task, and those that hold a replica of it. */
  datatype Where = Where(primaries: set<Core>, replicas: set<Core>)

  type Placement = h: imap<nat, Where> | forall id: nat :: id in h ghost witness imap id: nat :: Where({}, {})

  function HostsOf(cores: set<Core>, id: nat): Where
    reads cores
  {
    Where(set c | c in cores && HasId(c.primaries, id), set c | c in cores && HasId(c.replicas, id))
  }

  /** Where every task is. */
  ghost function Hosts(cores: set<Core>): (h: Placement)
    reads cores
    ensures forall id: nat :: h[id] == HostsOf(cores, id)
  {
    imap id: nat :: HostsOf(cores, id)
  }

  /** One more host for a task. */
  ghost function More(h: Placement, c: Core, kind: TaskType, id: nat): Placement {
    h[id := if kind == Primary then Where(h[id].primaries + {c}, h[id].replicas)
            else Where(h[id].primaries, h[id].replicas + {c})]
  }

  function TasksOf(cores: set<Core>): (ts: set<Task>)
    reads cores
    ensures forall c, t :: c in cores && t in c.Assigned() ==> t in ts
  {
    set c, t | c in cores && t in c.Assigned() :: t
  }

  /** The lists of all cores as values. */
  function PrimaryLists(cores: set<Core>): map<Core, seq<Task>>
    reads cores
  {
    map c | c in cores :: c.primaries
  }

  function ReplicaLists(cores: set<Core>): map<Core, seq<Task>>
    reads cores
  {
    map c | c in cores :: c.replicas
  }

  /** What a core decides on: the parameters of its primaries and replicas, and its recorded utilizations. */
  datatype Books = Books(ps: map<Core, seq<TaskSpec>>, rs: map<Core, seq<TaskSpec>>, us: map<Core, seq<real>>)

  function BooksOf(cores: set<Core>): Books
    reads cores
  {
    BooksIn(PrimaryLists(cores), ReplicaLists(cores), Utilizations(cores))
  }

  function Utilizations(cores: set<Core>): map<Core, seq<real>>
    reads cores
  {
    map c | c in cores :: c.utilization
  }

  function BooksIn(ps: map<Core, seq<Task>>, rs: map<Core, seq<Task>>, us: map<Core, seq<real>>): Books {
    Books(map c | c in ps :: SpecsOf(ps[c]), map c | c in rs :: SpecsOf(rs[c]), us)
  }

  ghost predicate Bookable(b: Books, c: Core, spec: TaskSpec, levels: nat) {
    c in b.ps && c in b.rs && c in b.us && ValidSpec(spec, levels) && |b.us[c]| == levels
  }

  /** A core with these books refuses the task. */
  ghost predicate Refuses(b: Books, c: Core, spec: TaskSpec, levels: nat) {
    Bookable(b, c, spec, levels) && Refused(b.ps[c] + b.rs[c] + [spec], spec, b.us[c], levels)
  }

  /** The task is entered at the end of the core's primaries or replicas, with its share of utilization. */
  ghost function Booked(b: Books, c: Core, kind: TaskType, spec: TaskSpec, levels: nat): Books
    requires Bookable(b, c, spec, levels)
  {
    Books(b.ps[c := b.ps[c] + (if kind == Primary then [spec] else [])],
          b.rs[c := b.rs[c] + (if kind == Replica then [spec] else [])],
          b.us[c := WithShare(b.us[c], spec, levels)])
  }

  /** Every core is in order and no task object is on two cores. */
  ghost predicate Orderly(cores: set<Core>, levels: nat)
    reads cores, TasksOf(cores)
  {
    && (forall c :: c in cores ==> c.levels == levels && c.Valid())
    && (forall c, d, t :: c in cores && d in cores && c != d && t in c.Assigned() ==> t !in d.Assigned())
  }

  /** No two hosts are on one processor, and there is at most one primary. */
  ghost predicate Apart(w: Where) {
    && |w.primaries| <= 1 && w.primaries !! w.replicas
    && (forall c, d :: c in w.primaries + w.replicas && d in w.primaries + w.replicas && c != d ==>
        c.processorId != d.processorId)
  }

  ghost predicate AllApart(h: Placement) {
    forall id: nat :: Apart(h[id])
  }

  /** A task object that is on no core yet. */
  ghost predicate Loose(cores: set<Core>, task: Task, levels: nat)
    reads cores, task
  {
    task !in TasksOf(cores) && ValidTuned(Tuned(task.spec, task.vd), levels)
  }

  lemma AbsentIsNew(core: Core, task: Task, levels: nat)
    requires task !in core.Assigned() && ValidTuned(Tuned(task.spec, task.vd), levels)
    requires !HasId(core.primaries, task.spec.id) && !HasId(core.replicas, task.spec.id)
    ensures Newcomer(core.Assigned(), task, levels)
  {
  }

  lemma HasIdMore(ts: seq<Task>, t: Task, id: nat)
    ensures HasId(ts + [t], id) <==> HasId(ts, id) || t.spec.id == id
  {
    assert t in ts + [t];
    assert forall x :: x in ts + [t] <==> x in ts || x == t;
  }

  lemma OrderlyHas(cores: set<Core>, levels: nat)
    requires Orderly(cores, levels)
    ensures forall c :: c in cores ==> c.levels == levels && c.Valid()
    ensures forall c, d, t :: c in cores && d in cores && c != d && t in c.Assigned() ==> t !in d.Assigned()
  {
  }

  lemma OrderlyFrom(cores: set<Core>, levels: nat)
    requires forall c :: c in cores ==> c.levels == levels && c.Valid()
    requires forall c, d, t :: c in cores && d in cores && c != d && t in c.Assigned() ==> t !in d.Assigned()
    ensures Orderly(cores, levels)
  {
  }

  lemma LooseFacts(core: Core, task: Task, cores: set<Core>, levels: nat)
    requires core in cores && Orderly(cores, levels) && Loose(cores, task, levels)
    requires core !in HostsOf(cores, task.spec.id).primaries && core !in HostsOf(cores, task.spec.id).replicas
    ensures core.levels == levels && core.Valid() && Newcomer(core.Assigned(), task, levels)
    ensures forall c :: c in cores ==> task !in c.Assigned()
    ensures ValidTuned(Tuned(task.spec, task.vd), levels)
  {
    hide CoreOk, ValidTuned;
    OrderlyHas(cores, levels);
    AbsentIsNew(core, task, levels);
  }

  lemma AssignedIs(core: Core)
    ensures core.Assigned() == core.primaries + core.replicas
  {
  }

  lemma LooseFrom(cores: set<Core>, task: Task, levels: nat)
    requires (forall c :: c in cores ==> task !in c.Assigned()) && ValidTuned(Tuned(task.spec, task.vd), levels)
    ensures Loose(cores, task, levels)
  {
  }

  lemma LastSnap(ts: seq<Task>, task: Task)
    ensures Snap(ts + [task])[|ts|] == Tuned(task.spec, task.vd)
  {
  }

  /** Offers a task to one core. If the core takes it, it becomes a host of the task; otherwise
      nothing has changed. */
  method TryCore(core: Core, task: Task, kind: TaskType, ghost cores: set<Core>, ghost levels: nat) returns (ok: bool)
    requires core in cores && Orderly(cores, levels) && Loose(cores, task, levels)
    requires core !in HostsOf(cores, task.spec.id).primaries && core !in HostsOf(cores, task.spec.id).replicas
    modifies core, core.Assigned(), task
    ensures Orderly(cores, levels)
    ensures !ok ==> Loose(cores, task, levels)
    ensures forall c :: c in cores && (c != core || !ok) ==>
              c.primaries == old(c.primaries) && c.replicas == old(c.replicas) && c.utilization == old(c.utilization)
    ensures ok ==> core.primaries == old(core.primaries) + (if kind == Primary then [task] else [])
    ensures ok ==> core.replicas == old(core.replicas) + (if kind == Replica then [task] else [])
    ensures old(|core.utilization|) == levels && ValidSpec(task.spec, levels)
    ensures ok ==> core.utilization == WithShare(old(core.utilization), task.spec, levels)
    ensures ok <==> !Refused(SpecsOf(old(core.primaries + core.replicas) + [task]), task.spec, old(core.utilization),
                             levels)
  {
    hide *;
    LooseFacts(core, task, cores, levels);
    OrderlyHas(cores, levels);
    AssignedIs(core);
    LastSnap(core.Assigned(), task);
    ghost var before := core.Assigned();
    SpecOk(task, levels);
    forall c, t | c in cores && c != core && t in c.Assigned() ensures t !in before && t != task {
    }
    forall c | c in cores
      ensures c.Assigned() == c.primaries + c.replicas
      ensures CoreOk(c.Assigned(), Snap(c.Assigned()), c.utilization, c.levels)
    {
      c.CoreFacts();
    }
    ok := core.TuneSystem(task, kind, true);
    AssignedIs(core);
    LastSnap(core.Assigned(), task);
    forall c | c in cores && c != core ensures c.Valid() && c.Assigned() == old(c.Assigned()) {
      c.CoreFacts();
      assert c.Assigned() == old(c.Assigned());
      assert forall t :: t in c.Assigned() ==> t in c.primaries || t in c.replicas;
      assert forall t :: t in c.Assigned() ==> t.vd == old(t.vd);
      assert Snap(c.Assigned()) == old(Snap(c.Assigned()));
    }
    assert forall t :: t in core.Assigned() ==> t in before || t == task;
    OrderlyFrom(cores, levels);
    if !ok {
      LooseFrom(cores, task, levels);
    }
  }

  lemma SpecOk(task: Task, levels: nat)
    requires ValidTuned(Tuned(task.spec, task.vd), levels)
    ensures ValidSpec(task.spec, levels)
  {
  }

  lemma ListsNow(cores: set<Core>)
    ensures PrimaryLists(cores).Keys == ReplicaLists(cores).Keys == Utilizations(cores).Keys == cores
    ensures forall c :: c in cores ==>
              && PrimaryLists(cores)[c] == c.primaries && ReplicaLists(cores)[c] == c.replicas
              && Utilizations(cores)[c] == c.utilization
    ensures BooksOf(cores) == BooksIn(PrimaryLists(cores), ReplicaLists(cores), Utilizations(cores))
  {
  }

  lemma BooksMore(ps: map<Core, seq<Task>>, rs: map<Core, seq<Task>>, us: map<Core, seq<real>>, core: Core, task: Task,
                  kind: TaskType, xs: seq<Task>, ys: seq<Task>, levels: nat)
    requires core in ps && core in rs && core in us && ValidSpec(task.spec, levels) && |us[core]| == levels
    requires xs == ps[core] + (if kind == Primary then [task] else [])
    requires ys == rs[core] + (if kind == Replica then [task] else [])
    ensures Bookable(BooksIn(ps, rs, us), core, task.spec, levels)
    ensures BooksIn(ps[core := xs], rs[core := ys], us[core := WithShare(us[core], task.spec, levels)])
         == Booked(BooksIn(ps, rs, us), core, kind, task.spec, levels)
  {
    hide WithShare, ValidSpec;
    SpecsMore(ps[core], task);
    SpecsMore(rs[core], task);
    assert ps[core] + [] == ps[core] && rs[core] + [] == rs[core];
    assert SpecsOf(ps[core]) + [] == SpecsOf(ps[core]) && SpecsOf(rs[core]) + [] == SpecsOf(rs[core]);
    hide SpecsOf;
  }

  lemma SpecsMore(ts: seq<Task>, t: Task)
    ensures SpecsOf(ts + [t]) == SpecsOf(ts) + [t.spec]
  {
  }

  lemma RefusesNow(ps: map<Core, seq<Task>>, rs: map<Core, seq<Task>>, us: map<Core, seq<real>>, c: Core, task: Task,
                   levels: nat)
    requires c in ps && c in rs && c in us && ValidSpec(task.spec, levels) && |us[c]| == levels
    ensures Refuses(BooksIn(ps, rs, us), c, task.spec, levels)
       <==> Refused(SpecsOf(ps[c] + rs[c] + [task]), task.spec, us[c], levels)
  {
    hide Refused, ValidSpec;
    SpecsMore(ps[c] + rs[c], task);
    assert SpecsOf(ps[c] + rs[c]) == SpecsOf(ps[c]) + SpecsOf(rs[c]);
  }

  lemma TaskSet(cores: set<Core>)
    ensures forall t :: t in TasksOf(cores) <==> exists c :: c in cores && (t in c.primaries || t in c.replicas)
  {
  }

  function HostsInLists(ps: map<Core, seq<Task>>, rs: map<Core, seq<Task>>, id: nat): Where {
    Where(set c | c in ps && HasId(ps[c], id), set c | c in rs && HasId(rs[c], id))
  }

  ghost function HostsIn(ps: map<Core, seq<Task>>, rs: map<Core, seq<Task>>): Placement {
    imap id: nat :: HostsInLists(ps, rs, id)
  }

  function TasksIn(ps: map<Core, seq<Task>>, rs: map<Core, seq<Task>>): set<Task> {
    (set c, t | c in ps && t in ps[c] :: t) + (set c, t | c in rs && t in rs[c] :: t)
  }

  lemma AsLists(cores: set<Core>)
    ensures Hosts(cores) == HostsIn(PrimaryLists(cores), ReplicaLists(cores))
    ensures TasksOf(cores) == TasksIn(PrimaryLists(cores), ReplicaLists(cores))
  {
    hide HasId;
    var ps, rs := PrimaryLists(cores), ReplicaLists(cores);
    forall id: nat ensures HostsOf(cores, id) == HostsIn(ps, rs)[id] {
    }
    assert Hosts(cores) == HostsIn(ps, rs);
    TaskSet(cores);
    forall t | t in TasksOf(cores) ensures t in TasksIn(ps, rs) {
      var c :| c in cores && (t in c.primaries || t in c.replicas);
      assert t in ps[c] || t in rs[c];
    }
    forall t | t in TasksIn(ps, rs) ensures t in TasksOf(cores) {
      assert exists c :: c in cores && (t in ps[c] || t in rs[c]);
    }
  }

  /** Appending a task to the lists of one core. */
  lemma Appended(ps: map<Core, seq<Task>>, rs: map<Core, seq<Task>>, core: Core, task: Task, kind: TaskType,
                 xs: seq<Task>, ys: seq<Task>)
    requires core in ps && core in rs
    requires xs == ps[core] + (if kind == Primary then [task] else [])
    requires ys == rs[core] + (if kind == Replica then [task] else [])
    ensures HostsIn(ps[core := xs], rs[core := ys]) == More(HostsIn(ps, rs), core, kind, task.spec.id)
    ensures TasksIn(ps[core := xs], rs[core := ys]) == TasksIn(ps, rs) + {task}
  {
    hide HasId, TasksIn;
    var ps', rs' := ps[core := xs], rs[core := ys];
    var h := More(HostsIn(ps, rs), core, kind, task.spec.id);
    forall id: nat ensures HostsIn(ps', rs')[id] == h[id] {
      HasIdMore(ps[core], task, id);
      HasIdMore(rs[core], task, id);
      assert ps[core] + [] == ps[core] && rs[core] + [] == rs[core];
    }
    assert HostsIn(ps', rs') == h;
    AppendedTasks(ps, rs, core, task, kind, xs, ys);
  }

  lemma AppendedTasks(ps: map<Core, seq<Task>>, rs: map<Core, seq<Task>>, core: Core, task: Task, kind: TaskType,
                      xs: seq<Task>, ys: seq<Task>)
    requires core in ps && core in rs
    requires xs == ps[core] + (if kind == Primary then [task] else [])
    requires ys == rs[core] + (if kind == Replica then [task] else [])
    ensures TasksIn(ps[core := xs], rs[core := ys]) == TasksIn(ps, rs) + {task}
  {
    var ps', rs' := ps[core := xs], rs[core := ys];
    assert forall c, t :: c in ps && t in ps[c] ==> t in ps'[c];
    assert forall c, t :: c in rs && t in rs[c] ==> t in rs'[c];
    assert kind == Primary ==> task in ps'[core];
    assert kind == Replica ==> task in rs'[core];
  }

  lemma SameMaps<V>(was: map<Core, V>, now: map<Core, V>, core: Core, x: V)
    requires core in was && now.Keys == was.Keys && now[core] == x
    requires forall c :: c in was && c != core ==> now[c] == was[c]
    ensures now == was[core := x] && (x == was[core] ==> now == was)
  {
  }

  /** The effect of an offer in terms of the hosts of every task. */
  method Offer(core: Core, task: Task, kind: TaskType, ghost cores: set<Core>, ghost levels: nat) returns (ok: bool)
    requires core in cores && Orderly(cores, levels) && Loose(cores, task, levels)
    requires core !in HostsOf(cores, task.spec.id).primaries && core !in HostsOf(cores, task.spec.id).replicas
    modifies core, core.Assigned(), task
    ensures Orderly(cores, levels)
    ensures !ok ==> Loose(cores, task, levels)
    ensures TasksOf(cores) == if ok then old(TasksOf(cores)) + {task} else old(TasksOf(cores))
    ensures Hosts(cores) == if ok then More(old(Hosts(cores)), core, kind, task.spec.id) else old(Hosts(cores))
    ensures ok <==> !Refuses(old(BooksOf(cores)), core, task.spec, levels)
    ensures Bookable(old(BooksOf(cores)), core, task.spec, levels)
    ensures BooksOf(cores) == if ok then Booked(old(BooksOf(cores)), core, kind, task.spec, levels)
                              else old(BooksOf(cores))
  {
    hide *;
    ghost var ps, rs, us := PrimaryLists(cores), ReplicaLists(cores), Utilizations(cores);
    AsLists(cores);
    ListsNow(cores);
    ok := TryCore(core, task, kind, cores, levels);
    AsLists(cores);
    ListsNow(cores);
    BooksMore(ps, rs, us, core, task, kind, ps[core] + (if kind == Primary then [task] else []),
              rs[core] + (if kind == Replica then [task] else []), levels);
    RefusesNow(ps, rs, us, core, task, levels);
    SameMaps(ps, PrimaryLists(cores), core, core.primaries);
    SameMaps(rs, ReplicaLists(cores), core, core.replicas);
    SameMaps(us, Utilizations(cores), core, core.utilization);
    if ok {
      Appended(ps, rs, core, task, kind, core.primaries, core.replicas);
    }
  }

  // ---- the allocator ------------------------------------------------------------------------

  function CoresOf(processors: seq<Processor>): (cs: set<Core>)
    ensures forall p, c :: p in processors && c in p.cores ==> c in cs
  {
    set p, c | p in processors && c in p.cores :: c
  }

  /** Processors are numbered in order and every core knows the processor it belongs to. */
  ghost predicate Wired(processors: seq<Processor>) {
    && (forall i :: 0 <= i < |processors| ==> processors[i].id == i)
    && (forall p, c :: p in processors && c in p.cores ==> c.processorId == p.id)
  }

  /** The task has become hosted by one more core, and no other task is affected. */
  ghost predicate Gained(cores: set<Core>, before: Placement, after: Placement, kind: TaskType, id: nat) {
    exists c :: c in cores && c !in before[id].primaries && c !in before[id].replicas
        && after == More(before, c, kind, id)
  }

  lemma NothingPlaced(cores: set<Core>)
    requires forall c :: c in cores ==> c.primaries == [] && c.replicas == []
    ensures TasksOf(cores) == {} && AllApart(Hosts(cores))
    ensures forall id: nat :: HostsOf(cores, id) == Where({}, {})
  {
    TaskSet(cores);
    forall id: nat ensures HostsOf(cores, id) == Where({}, {}) {
    }
  }

  lemma ApartMore(h: Placement, c: Core, kind: TaskType, id: nat)
    requires AllApart(h) && (kind == Primary ==> h[id] == Where({}, {}))
    requires c !in h[id].primaries && c !in h[id].replicas
    requires forall d :: d in h[id].primaries + h[id].replicas ==> d.processorId != c.processorId
    ensures AllApart(More(h, c, kind, id))
  {
    var h' := More(h, c, kind, id);
    assert Apart(h[id]);
    if kind == Primary {
      assert h'[id].primaries == {c};
    }
    forall i: nat ensures Apart(h'[i]) {
      if i != id {
        assert Apart(h[i]);
      }
    }
  }

  /** All hosts of a task are on other processors than one without a copy of it. */
  lemma FreeProcessor(processors: seq<Processor>, p: Processor, c: Core, hosts: set<Core>)
    requires Wired(processors) && p in processors && c in p.cores && hosts <= CoresOf(processors)
    requires forall d :: d in p.cores ==> d !in hosts
    ensures forall d :: d in hosts ==> d.processorId != c.processorId
  {
    forall d | d in hosts ensures d.processorId != c.processorId {
      var q :| q in processors && d in q.cores;
      if q.id == p.id {
        SameProcessor(processors, p, q);
      }
    }
  }

  lemma HostsWithin(cores: set<Core>, id: nat)
    ensures HostsOf(cores, id).primaries + HostsOf(cores, id).replicas <= cores
  {
  }

  lemma SameProcessor(processors: seq<Processor>, p: Processor, q: Processor)
    requires Wired(processors) && p in processors && q in processors && p.id == q.id
    ensures p == q
  {
    var i :| 0 <= i < |processors| && processors[i] == p;
    var j :| 0 <= j < |processors| && processors[j] == q;
  }

  predicate HostOn(p: Processor, hosts: set<Core>) {
    exists c :: c in p.cores && c in hosts
  }

  /** The processor has a copy of the task. */
  predicate HasCopy(p: Processor, w: Where) {
    HostOn(p, w.primaries) || HostOn(p, w.replicas)
  }

  /** One of the core's primaries has a replica on the processor that holds the primary of `id`. */
  ghost predicate Unsafe(processors: seq<Processor>, h: Placement, c: Core, id: nat) {
    exists p, other: nat :: p in processors && HostOn(p, h[id].primaries) && c in h[other].primaries
        && HostOn(p, h[other].replicas)
  }

  /** A replica of `id` has been placed on a core where that is safe. */
  ghost predicate SafelyGained(processors: seq<Processor>, before: Placement, after: Placement, id: nat,
                               replicas: nat) {
    exists c :: c in CoresOf(processors) && after == More(before, c, Replica, id)
                && (replicas == 1 ==> !Unsafe(processors, before, c, id))
  }

  method FindPrimary(processors: seq<Processor>, taskId: nat) returns (found: bool, i: nat)
    ensures found ==> i < |processors| && exists c :: c in processors[i].cores && HasId(c.primaries, taskId)
    ensures !found ==> forall p, c :: p in processors && c in p.cores ==> !HasId(c.primaries, taskId)
  {
    hide HasId;
    for k := 0 to |processors|
      invariant forall x :: 0 <= x < k ==> forall c :: c in processors[x].cores ==> !HasId(c.primaries, taskId)
    {
      var here := processors[k].ContainsTaskPrimary(taskId);
      if here {
        return true, k;
      }
    }
    return false, 0;
  }

  predicate DistinctRequests(rs: seq<Request>) {
    forall i, j :: 0 <= i < j < |rs| ==> rs[i].spec.id != rs[j].spec.id
  }

  /** One primary and the number of replicas asked for. */
  predicate Complete(w: Where, replicas: nat) {
    |w.primaries| == 1 && |w.replicas| == replicas
  }

  predicate Asked(rs: seq<Request>, id: nat) {
    exists i :: 0 <= i < |rs| && rs[i].spec.id == id
  }

  /** Nothing has changed but where task `id` is. */
  ghost predicate OnlyFor(before: Placement, after: Placement, id: nat) {
    forall i: nat :: i != id ==> after[i] == before[i]
  }

  lemma OnlyForSame(h: Placement, id: nat)
    ensures OnlyFor(h, h, id)
  {
  }

  lemma OnlyForChain(a: Placement, b: Placement, c: Placement, id: nat)
    requires OnlyFor(a, b, id) && OnlyFor(b, c, id)
    ensures OnlyFor(a, c, id)
  {
  }

  lemma OnlyForOthers(before: Placement, after: Placement, rs: seq<Request>, k: nat)
    requires k < |rs| && OnlyFor(before, after, rs[k].spec.id) && DistinctRequests(rs)
    ensures forall i :: 0 <= i < |rs| && i != k ==> after[rs[i].spec.id] == before[rs[i].spec.id]
    ensures forall id: nat :: !Asked(rs, id) ==> after[id] == before[id]
  {
  }

  lemma CompleteNotEmpty(w: Where, k: nat)
    requires Complete(w, k)
    ensures w.primaries != {}
  {
  }

  /** One more host: the primary first, then the replicas. */
  lemma GainedCount(cores: set<Core>, before: Placement, after: Placement, kind: TaskType, id: nat)
    requires Gained(cores, before, after, kind, id)
    ensures OnlyFor(before, after, id)
    ensures kind == Primary && before[id] == Where({}, {}) ==> Complete(after[id], 0)
    ensures forall k: nat :: kind == Replica && Complete(before[id], k) ==> Complete(after[id], k + 1)
  {
  }

  /** No task is asked for twice. */
  ghost predicate DistinctGroups(groups: seq<seq<Request>>) {
    && (forall g :: 0 <= g < |groups| ==> DistinctRequests(groups[g]))
    && (forall g, x, id: nat :: 0 <= g < x < |groups| && Asked(groups[g], id) ==> !Asked(groups[x], id))
  }

  lemma NextGroup(groups: seq<seq<Request>>, g: nat)
    requires g < |groups| && DistinctGroups(groups)
    ensures DistinctRequests(groups[g])
    ensures forall i :: 0 <= i < |groups[g]| ==> Asked(groups[g], groups[g][i].spec.id)
    ensures forall x, i :: 0 <= x < g && 0 <= i < |groups[x]| ==>
              Asked(groups[x], groups[x][i].spec.id) && !Asked(groups[g], groups[x][i].spec.id)
    ensures forall x, i :: 0 <= x < g && 0 <= i < |groups[g]| ==> !Asked(groups[x], groups[g][i].spec.id)
  {
    hide DistinctRequests;
    forall x, i | 0 <= x < g && 0 <= i < |groups[x]|
      ensures Asked(groups[x], groups[x][i].spec.id) && !Asked(groups[g], groups[x][i].spec.id) {
    }
  }

  /** All tasks in the order of the groups. */
  function Flat(groups: seq<seq<Request>>): seq<Request> {
    if groups == [] then [] else Flat(groups[..|groups| - 1]) + groups[|groups| - 1]
  }

  lemma FlatStart(groups: seq<seq<Request>>)
    ensures Flat(groups[..0]) == []
  {
  }

  lemma FlatNext(groups: seq<seq<Request>>, g: nat)
    requires g < |groups|
    ensures Flat(groups[..g + 1]) == Flat(groups[..g]) + groups[g]
    ensures groups[g] == [] ==> Flat(groups[..g + 1]) == Flat(groups[..g])
  {
    assert groups[..g + 1][..g] == groups[..g];
  }

  /** The tasks up to the first `n` of group `g` are the beginning of all tasks. */
  lemma {:induction false} FlatPart(groups: seq<seq<Request>>, g: nat, n: nat)
    requires g < |groups| && n <= |groups[g]|
    ensures |Flat(groups[..g])| + n <= |Flat(groups)|
    ensures Flat(groups)[..|Flat(groups[..g])| + n] == Flat(groups[..g]) + groups[g][..n]
    ensures n < |groups[g]| ==>
              |Flat(groups[..g])| + n < |Flat(groups)| && Flat(groups)[|Flat(groups[..g])| + n] == groups[g][n]
    decreases |groups|
  {
    var k := |groups| - 1;
    if g == k {
      assert groups[..g] == groups[..k];
    } else {
      FlatPart(groups[..k], g, n);
      assert groups[..k][..g] == groups[..g] && groups[..k][g] == groups[g];
      assert Flat(groups) == Flat(groups[..k]) + groups[k];
    }
  }

  datatype Outcome = Taken | NoRoom | NoPrimary

  /** All that the allocator decides on: the books, where the tasks are, the processor the next round begins
      with, and the number of processors in use. */
  datatype Stage = Stage(books: Books, layout: Placement, next: nat, estimate: nat)

  /** The processor visited after `offset` turns of a round over `n` processors. */
  function Turn(start: nat, offset: nat, n: nat): (r: nat)
    requires n > 0
    ensures r < n
  {
    (start + offset) % n
  }

  lemma TurnIs(start: nat, offset: nat, n: nat)
    requires n > 0
    ensures Turn(start, offset, n) == (start + offset) % n < n
  {
  }

  lemma TurnReaches(start: nat, i: nat, n: nat) returns (o: nat)
    requires start < n && i < n
    ensures o < n && Turn(start, o, n) == i
  {
    o := if i >= start then i - start else i - start + n;
    Numbers.DivModUnique(start + o, n, if i >= start then 0 else 1, i);
  }

  lemma NextTurn(x: nat, n: nat)
    requires n > 0
    ensures (x % n + 1) % n == (x + 1) % n
  {
    var q, r := x / n, x % n;
    assert x == n * q + r;
    if r + 1 < n {
      Numbers.DivModUnique(x + 1, n, q, r + 1);
      Numbers.DivModUnique(r + 1, n, 0, r + 1);
    } else {
      assert n * (q + 1) == n * q + n;
      Numbers.DivModUnique(x + 1, n, q + 1, 0);
      Numbers.DivModUnique(n, n, 1, 0);
    }
  }

  class Allocator {
    const processors: seq<Processor>
    const levels: nat
    ghost const cores: set<Core>
    var estimate: nat
    var next: nat

    ghost function Layout(): Placement
      reads cores
    {
      Hosts(cores)
    }

    ghost function Now(): Stage
      reads this, cores
    {
      Stage(BooksOf(cores), Layout(), next, estimate)
    }

    ghost predicate Valid()
      reads this, cores, TasksOf(cores)
    {
      && Wired(processors) && cores == CoresOf(processors) && Orderly(cores, levels) && AllApart(Layout())
      && next < estimate <= |processors|
    }

    constructor (processors: seq<Processor>, levels: nat, estimate: nat)
      requires Wired(processors) && Orderly(CoresOf(processors), levels) && 0 < estimate <= |processors|
      requires forall c :: c in CoresOf(processors) ==> c.primaries == [] && c.replicas == []
      ensures Valid() && this.processors == processors && this.levels == levels
      ensures this.estimate == estimate && next == 0
      ensures (forall id: nat :: Layout()[id] == Where({}, {})) && TasksOf(cores) == {}
    {
      hide Orderly, Wired, HostsOf, AllApart, TasksOf, CoresOf;
      NothingPlaced(CoresOf(processors));
      this.processors, this.levels, this.estimate, next := processors, levels, estimate, 0;
      cores := CoresOf(processors);
    }

    /** Offers the task to the cores of one processor that has no copy of it yet. */
    method OfferToProcessor(p: Processor, task: Task, kind: TaskType, safe: seq<bool>) returns (ok: bool, ghost k: nat)
      requires Valid() && Loose(cores, task, levels) && p in processors && |safe| == |p.cores|
      requires kind == Primary ==> Layout()[task.spec.id] == Where({}, {})
      requires forall d :: d in p.cores ==>
                 d !in Layout()[task.spec.id].primaries && d !in Layout()[task.spec.id].replicas
      modifies cores, TasksOf(cores), task
      ensures Valid()
      ensures TasksOf(cores) == if ok then old(TasksOf(cores)) + {task} else old(TasksOf(cores))
      ensures !ok ==> Loose(cores, task, levels) && Layout() == old(Layout()) && BooksOf(cores) == old(BooksOf(cores))
      ensures !ok ==> forall k :: 0 <= k < |p.cores| && safe[k] ==>
                Refuses(old(BooksOf(cores)), p.cores[k], task.spec, levels)
      ensures ok ==> Gained(cores, old(Layout()), Layout(), kind, task.spec.id)
      ensures ok ==>
                && k < |p.cores| && safe[k]
                && (forall x :: 0 <= x < k && safe[x] ==> Refuses(old(BooksOf(cores)), p.cores[x], task.spec, levels))
                && !Refuses(old(BooksOf(cores)), p.cores[k], task.spec, levels)
                && Bookable(old(BooksOf(cores)), p.cores[k], task.spec, levels)
                && Layout() == More(old(Layout()), p.cores[k], kind, task.spec.id)
                && BooksOf(cores) == Booked(old(BooksOf(cores)), p.cores[k], kind, task.spec, levels)
    {
      hide Booked, Bookable, Orderly, Loose, HasId, Wired, AllApart, HostsOf, TasksOf, CoresOf, More, Refuses, BooksOf;
      ghost var id := task.spec.id;
      for n := 0 to |p.cores|
        invariant Valid() && Loose(cores, task, levels) && Layout() == old(Layout())
        invariant TasksOf(cores) == old(TasksOf(cores))
        invariant BooksOf(cores) == old(BooksOf(cores))
        invariant forall x :: 0 <= x < n && safe[x] ==> Refuses(old(BooksOf(cores)), p.cores[x], task.spec, levels)
      {
        var core := p.cores[n];
        if safe[n] {
          ghost var h := Layout();
          HostsWithin(cores, id);
          FreeProcessor(processors, p, core, h[id].primaries + h[id].replicas);
          ok := Offer(core, task, kind, cores, levels);
          if ok {
            ApartMore(h, core, kind, id);
            return true, n;
          }
        }
      }
      return false, 0;
    }

    lemma ValidParts()
      requires Valid()
      ensures Wired(processors) && cores == CoresOf(processors) && Orderly(cores, levels) && AllApart(Layout())
      ensures next < estimate <= |processors|
    {
    }

    method SetNext(n: nat)
      requires Valid() && n < estimate
      modifies this`next
      ensures Valid() && next == n
    {
      hide *;
      ValidParts();
      OrderlyHas(cores, levels);
      forall c | c in cores
        ensures c.Assigned() == c.primaries + c.replicas
        ensures CoreOk(c.Assigned(), Snap(c.Assigned()), c.utilization, c.levels)
      {
        c.CoreFacts();
      }
      next := n;
      forall c | c in cores ensures c.Valid() && c.Assigned() == old(c.Assigned()) {
        c.CoreFacts();
        assert forall t :: t in c.Assigned() ==> t.vd == old(t.vd);
        assert Snap(c.Assigned()) == old(Snap(c.Assigned()));
      }
      OrderlyFrom(cores, levels);
      ValidFrom();
    }

    lemma ValidFrom()
      requires Wired(processors) && cores == CoresOf(processors) && Orderly(cores, levels) && AllApart(Layout())
      requires next < estimate <= |processors|
      ensures Valid()
    {
    }

    /** The core cannot take the copy: it refuses, or it is not safe for the task's only replica. */
    ghost predicate Unfit(b: Books, h: Placement, c: Core, kind: TaskType, spec: TaskSpec, replicas: nat) {
      || (kind == Replica && replicas == 1 && Unsafe(processors, h, c, spec.id))
      || Refuses(b, c, spec, levels)
    }

    /** No core of processor `i` can take the copy; a replica cannot go where there is one already. */
    ghost predicate NoPlaceOn(b: Books, h: Placement, i: nat, kind: TaskType, spec: TaskSpec, replicas: nat)
      requires i < |processors|
    {
      (kind == Replica && HasCopy(processors[i], h[spec.id]))
          || forall k :: 0 <= k < |processors[i].cores| ==> Unfit(b, h, processors[i].cores[k], kind, spec, replicas)
    }

    ghost predicate NoPlace(b: Books, h: Placement, n: nat, kind: TaskType, spec: TaskSpec, replicas: nat) {
      forall i :: 0 <= i < n && i < |processors| ==> NoPlaceOn(b, h, i, kind, spec, replicas)
    }

    /** The same for the processors visited so far on a round that began at `start`. */
    ghost predicate RoundNoPlace(b: Books, h: Placement, start: nat, visited: nat, n: nat, kind: TaskType,
                                 spec: TaskSpec, replicas: nat)
      requires n > 0
    {
      forall o :: 0 <= o < visited && Turn(start, o, n) < |processors| ==>
          NoPlaceOn(b, h, Turn(start, o, n), kind, spec, replicas)
    }

    lemma FullRoundNoPlace(b: Books, h: Placement, start: nat, n: nat, kind: TaskType, spec: TaskSpec, replicas: nat)
      requires 0 < n <= |processors| && start < n && RoundNoPlace(b, h, start, n, n, kind, spec, replicas)
      ensures NoPlace(b, h, n, kind, spec, replicas)
    {
      hide NoPlaceOn;
      forall i | 0 <= i < n ensures NoPlaceOn(b, h, i, kind, spec, replicas) {
        var o := TurnReaches(start, i, n);
      }
    }

    lemma RoundNoPlaceNext(b: Books, h: Placement, start: nat, visited: nat, n: nat, kind: TaskType, spec: TaskSpec,
                           replicas: nat)
      requires 0 < n <= |processors| && RoundNoPlace(b, h, start, visited, n, kind, spec, replicas)
      requires NoPlaceOn(b, h, Turn(start, visited, n), kind, spec, replicas)
      ensures RoundNoPlace(b, h, start, visited + 1, n, kind, spec, replicas)
    {
      hide NoPlaceOn, Turn;
    }

    lemma RoundNoPlaceStarts(b: Books, h: Placement, start: nat, n: nat, kind: TaskType, spec: TaskSpec, replicas: nat)
      requires n > 0
      ensures RoundNoPlace(b, h, start, 0, n, kind, spec, replicas)
    {
    }

    lemma NoPlaceHere(b: Books, h: Placement, i: nat, kind: TaskType, spec: TaskSpec, replicas: nat, safe: seq<bool>)
      requires i < |processors|
      requires (kind == Replica && HasCopy(processors[i], h[spec.id]))
               || (|safe| == |processors[i].cores|
                   && forall k :: 0 <= k < |safe| ==>
                        && (safe[k] || (kind == Replica && replicas == 1
                                        && Unsafe(processors, h, processors[i].cores[k], spec.id)))
                        && (safe[k] ==> Refuses(b, processors[i].cores[k], spec, levels)))
      ensures NoPlaceOn(b, h, i, kind, spec, replicas)
    {
      hide HasCopy, Unsafe, Refuses;
    }

    /** The copy has gone to core `k` of the processor visited after `o` turns of the round: nothing visited
        before can take it, this core can, and the next round begins with the processor after it. */
    ghost predicate Visited(s: Stage, s': Stage, kind: TaskType, spec: TaskSpec, replicas: nat, o: nat, k: nat) {
      && o < s'.estimate <= |processors|
      && var p := processors[(s.next + o) % s'.estimate];
      && RoundNoPlace(s.books, s.layout, s.next, o, s'.estimate, kind, spec, replicas)
      && (kind == Replica ==> !HasCopy(p, s.layout[spec.id]))
      && k < |p.cores|
      && (forall x :: 0 <= x < k ==> Unfit(s.books, s.layout, p.cores[x], kind, spec, replicas))
      && !Unfit(s.books, s.layout, p.cores[k], kind, spec, replicas)
      && Bookable(s.books, p.cores[k], spec, levels)
      && s'.books == Booked(s.books, p.cores[k], kind, spec, levels)
      && s'.layout == More(s.layout, p.cores[k], kind, spec.id)
      && s'.next == (s.next + o + 1) % s'.estimate
    }

    /** A copy of the task has been placed: with as few more processors taken into use as it needs, on the
        first core, in the order of the round, that can take it. */
    ghost predicate CopyPlaced(s: Stage, s': Stage, kind: TaskType, spec: TaskSpec, replicas: nat) {
      && s.estimate <= s'.estimate
      && (s.estimate < s'.estimate ==> NoPlace(s.books, s.layout, s'.estimate - 1, kind, spec, replicas))
      && exists o, k :: Visited(s, s', kind, spec, replicas, o, k)
    }

    lemma PlacedNow(s: Stage, s': Stage, kind: TaskType, spec: TaskSpec, replicas: nat, o: nat, k: nat, safe: seq<bool>)
      requires s.estimate == s'.estimate && o < s'.estimate <= |processors|
      requires RoundNoPlace(s.books, s.layout, s.next, o, s'.estimate, kind, spec, replicas)
      requires var p := processors[Turn(s.next, o, s'.estimate)];
               && (kind == Replica ==> !HasCopy(p, s.layout[spec.id]))
               && k < |p.cores| == |safe| && safe[k]
               && (forall x :: 0 <= x < |safe| ==>
                     (safe[x] <==> !(kind == Replica && replicas == 1
                                     && Unsafe(processors, s.layout, p.cores[x], spec.id))))
               && (forall x :: 0 <= x < k && safe[x] ==> Refuses(s.books, p.cores[x], spec, levels))
               && !Refuses(s.books, p.cores[k], spec, levels)
               && Bookable(s.books, p.cores[k], spec, levels)
               && s'.books == Booked(s.books, p.cores[k], kind, spec, levels)
               && s'.layout == More(s.layout, p.cores[k], kind, spec.id)
               && s'.next == (Turn(s.next, o, s'.estimate) + 1) % s'.estimate
      ensures CopyPlaced(s, s', kind, spec, replicas)
    {
      TurnIs(s.next, o, s'.estimate);
      NextTurn(s.next + o, s'.estimate);
      hide Turn, RoundNoPlace, HasCopy, Unsafe, Refuses, Bookable, Booked, More;
      assert Visited(s, s', kind, spec, replicas, o, k);
    }

    /** The same after more processors have been taken into use, because the copy had no place on fewer. */
    lemma PlacedLater(s0: Stage, s: Stage, s': Stage, kind: TaskType, spec: TaskSpec, replicas: nat)
      requires CopyPlaced(s, s', kind, spec, replicas) && s.estimate == s'.estimate
      requires s0.estimate <= s.estimate && s == s0.(estimate := s.estimate)
      requires s0.estimate < s.estimate ==> NoPlace(s.books, s.layout, s.estimate - 1, kind, spec, replicas)
      ensures CopyPlaced(s0, s', kind, spec, replicas)
    {
      hide NoPlace, RoundNoPlace, Unfit, HasCopy, Bookable, Booked, More;
      var o, k :| Visited(s, s', kind, spec, replicas, o, k);
      assert Visited(s0, s', kind, spec, replicas, o, k);
    }

    /** Tries the processors in turn, from the next one on, as many as are in use; gives up only when
        every core of theirs has refused. */
    method AllocatePrimary(task: Task) returns (ok: bool)
      requires Valid() && Loose(cores, task, levels)
      requires Layout()[task.spec.id] == Where({}, {})
      modifies this`next, cores, TasksOf(cores), task
      ensures Valid()
      ensures TasksOf(cores) == if ok then old(TasksOf(cores)) + {task} else old(TasksOf(cores))
      ensures !ok ==> Loose(cores, task, levels) && Now() == old(Now())
      ensures !ok ==> NoPlace(old(BooksOf(cores)), old(Layout()), estimate, Primary, task.spec, 0)
      ensures ok ==> Gained(cores, old(Layout()), Layout(), Primary, task.spec.id)
      ensures ok ==> CopyPlaced(old(Now()), Now(), Primary, task.spec, 0)
    {
      hide *;
      var start := next;
      ValidParts();
      ghost var books, layout, was := BooksOf(cores), Layout(), Now();
      StageIs();
      RoundNoPlaceStarts(books, layout, start, estimate, Primary, task.spec, 0);
      for offset := 0 to estimate
        invariant Valid() && Loose(cores, task, levels) && next == start
        invariant Layout() == layout && TasksOf(cores) == old(TasksOf(cores)) && BooksOf(cores) == books
        invariant RoundNoPlace(books, layout, start, offset, estimate, Primary, task.spec, 0)
      {
        ValidParts();
        var procId := (start + offset) % estimate;
        TurnIs(start, offset, estimate);
        var proc := processors[procId];
        var all := seq(|proc.cores|, _ => true);
        ghost var k;
        ok, k := OfferToProcessor(proc, task, Primary, all);
        if ok {
          SetNext((procId + 1) % estimate);
          StageIs();
          PlacedNow(was, Now(), Primary, task.spec, 0, offset, k, all);
          return;
        }
        NoPlaceHere(books, layout, procId, Primary, task.spec, 0, all);
        RoundNoPlaceNext(books, layout, start, offset, estimate, Primary, task.spec, 0);
      }
      FullRoundNoPlace(books, layout, start, estimate, Primary, task.spec, 0);
      StageIs();
      return false;
    }

    lemma StageIs()
      ensures Now() == Stage(BooksOf(cores), Layout(), next, estimate)
    {
    }

    method FindProcessorOfPrimary(task: Task) returns (found: bool, i: nat)
      requires Valid() && Loose(cores, task, levels)
      ensures Valid() && Loose(cores, task, levels) && Layout() == old(Layout())
      ensures TasksOf(cores) == old(TasksOf(cores))
      ensures found ==> i < |processors| && HostOn(processors[i], Layout()[task.spec.id].primaries)
      ensures found <==> Layout()[task.spec.id].primaries != {}
    {
      hide Orderly, HasId, Wired, AllApart;
      found, i := FindPrimary(processors, task.spec.id);
      assert found ==> exists c :: c in processors[i].cores && c in Layout()[task.spec.id].primaries;
    }

    /** Whether the search for a replica's place passes a processor over, and if not, which of its
        cores it may use. A processor that is looked at has no copy of the task. */
    method Consider(p: Processor, primary: Processor, task: Task, replicas: nat) returns (skip: bool, safe: seq<bool>)
      requires Valid() && Loose(cores, task, levels) && p in processors && primary in processors
      requires HostOn(primary, Layout()[task.spec.id].primaries)
      ensures Valid() && Loose(cores, task, levels) && Layout() == old(Layout())
      ensures TasksOf(cores) == old(TasksOf(cores))
      ensures BooksOf(cores) == old(BooksOf(cores))
      ensures skip <==> HasCopy(p, Layout()[task.spec.id])
      ensures !skip ==> |safe| == |p.cores|
      ensures !skip ==> forall k :: 0 <= k < |p.cores| ==>
                (safe[k] <==> replicas != 1 || !Unsafe(processors, Layout(), p.cores[k], task.spec.id))
    {
      hide Orderly, HasId, Wired, AllApart, HostsOf, Hosts, HostOn, HasCopy, Unsafe;
      safe := [];
      skip := p.id == primary.id;
      if skip {
        SameProcessor(processors, p, primary);
        CopyOn(p, task.spec.id);
      } else {
        skip := p.ContainsTaskReplica(task.spec.id);
        CopyOn(p, task.spec.id);
        if !skip {
          OtherProcessor(p, primary, task.spec.id);
        }
      }
      if !skip {
        safe := SafeCores(p, primary, replicas);
        forall k | 0 <= k < |p.cores|
          ensures MutualBackup(p.cores[k].primaries, primary) <==>
                    Unsafe(processors, Layout(), p.cores[k], task.spec.id)
        {
          MutualIsUnsafe(p, p.cores[k], primary, task.spec.id);
        }
      }
    }

    lemma CopyOn(p: Processor, id: nat)
      requires Wired(processors) && cores == CoresOf(processors) && p in processors
      ensures (exists c :: c in p.cores && HasId(c.replicas, id)) <==> HostOn(p, Layout()[id].replicas)
      ensures HasCopy(p, Layout()[id]) <==> HostOn(p, Layout()[id].primaries) || HostOn(p, Layout()[id].replicas)
    {
      hide HasId, Wired;
      assert forall c :: c in p.cores ==> c in cores;
    }

    /** The check over the tasks of a core finds exactly the unsafe cores. */
    lemma MutualIsUnsafe(p: Processor, c: Core, primary: Processor, id: nat)
      requires Wired(processors) && cores == CoresOf(processors) && AllApart(Layout()) && primary in processors
      requires p in processors
      requires c in p.cores && HostOn(primary, Layout()[id].primaries)
      ensures MutualBackup(c.primaries, primary) <==> Unsafe(processors, Layout(), c, id)
    {
      hide HasId, AllApart;
      assert c in cores;
      if MutualBackup(c.primaries, primary) {
        var t, d :| t in c.primaries && d in primary.cores && HasId(d.replicas, t.spec.id);
        assert HasId(c.primaries, t.spec.id) by { HasOwn(c.primaries, t); }
        assert c in Layout()[t.spec.id].primaries && d in Layout()[t.spec.id].replicas;
        assert HostOn(primary, Layout()[t.spec.id].replicas);
      }
      if Unsafe(processors, Layout(), c, id) {
        var q, other: nat :| q in processors && HostOn(q, Layout()[id].primaries)
                             && c in Layout()[other].primaries && HostOn(q, Layout()[other].replicas);
        OneHolder(q, primary, id);
        var d :| d in primary.cores && d in Layout()[other].replicas;
        var t := OwnOf(c.primaries, other);
      }
    }

    lemma OneHolder(p: Processor, q: Processor, id: nat)
      requires Wired(processors) && cores == CoresOf(processors) && AllApart(Layout()) && p in processors
      requires q in processors
      requires HostOn(p, Layout()[id].primaries) && HostOn(q, Layout()[id].primaries)
      ensures p == q
    {
      hide HasId, Hosts, HostsOf;
      var c :| c in p.cores && c in Layout()[id].primaries;
      var d :| d in q.cores && d in Layout()[id].primaries;
      assert Apart(Layout()[id]);
      OneHost(Layout()[id].primaries, c, d);
      assert c.processorId == p.id && d.processorId == q.id;
      SameProcessor(processors, p, q);
    }

    lemma PlacedSafely(h: Placement, after: Placement, p: Processor, k: nat, id: nat, replicas: nat)
      requires Wired(processors) && p in processors && k < |p.cores| && after == More(h, p.cores[k], Replica, id)
      requires replicas != 1 || !Unsafe(processors, h, p.cores[k], id)
      ensures SafelyGained(processors, h, after, id, replicas)
    {
      hide Unsafe, More;
      assert p.cores[k] in CoresOf(processors);
    }

    /** Tries the processors in turn, except the primary's and those that already hold a replica, and
        the cores that are safe for it; gives up only when none of them can take it. */
    method AllocateReplica(task: Task, replicas: nat) returns (outcome: Outcome)
      requires Valid() && Loose(cores, task, levels)
      modifies this`next, cores, TasksOf(cores), task
      ensures Valid()
      ensures outcome == NoPrimary <==> old(Layout())[task.spec.id].primaries == {}
      ensures TasksOf(cores) == if outcome == Taken then old(TasksOf(cores)) + {task} else old(TasksOf(cores))
      ensures outcome != Taken ==>
                Loose(cores, task, levels) && Now() == old(Now())
      ensures outcome == NoRoom ==>
                NoPlace(old(BooksOf(cores)), old(Layout()), estimate, Replica, task.spec, replicas)
      ensures outcome == Taken ==> Gained(cores, old(Layout()), Layout(), Replica, task.spec.id)
      ensures outcome == Taken ==> SafelyGained(processors, old(Layout()), Layout(), task.spec.id, replicas)
      ensures outcome == Taken ==> CopyPlaced(old(Now()), Now(), Replica, task.spec, replicas)
    {
      hide *;
      var start := next;
      ghost var books, layout, was := BooksOf(cores), Layout(), Now();
      ValidParts();
      StageIs();
      var found, i := FindProcessorOfPrimary(task);
      if !found {
        return NoPrimary;
      }
      var primary := processors[i];
      RoundNoPlaceStarts(books, layout, start, estimate, Replica, task.spec, replicas);
      for offset := 0 to estimate
        invariant Valid() && Loose(cores, task, levels) && next == start
        invariant Layout() == layout && TasksOf(cores) == old(TasksOf(cores)) && BooksOf(cores) == books
        invariant RoundNoPlace(books, layout, start, offset, estimate, Replica, task.spec, replicas)
      {
        ValidParts();
        var procId := (start + offset) % estimate;
        TurnIs(start, offset, estimate);
        var proc := processors[procId];
        var skip, safe := Consider(proc, primary, task, replicas);
        if !skip {
          NoCopy(proc, layout[task.spec.id]);
          ghost var k;
          var ok;
          ok, k := OfferToProcessor(proc, task, Replica, safe);
          if ok {
            PlacedSafely(layout, Layout(), proc, k, task.spec.id, replicas);
            SetNext((procId + 1) % estimate);
            StageIs();
            PlacedNow(was, Now(), Replica, task.spec, replicas, offset, k, safe);
            return Taken;
          }
        }
        NoPlaceHere(books, layout, procId, Replica, task.spec, replicas, safe);
        RoundNoPlaceNext(books, layout, start, offset, estimate, Replica, task.spec, replicas);
      }
      FullRoundNoPlace(books, layout, start, estimate, Replica, task.spec, replicas);
      StageIs();
      return NoRoom;
    }

    /** Takes one more processor into use. */
    method Grow() returns (ok: bool)
      requires Valid()
      modifies this`estimate
      ensures Valid() && ok == (old(estimate) < |processors|)
      ensures estimate == if ok then old(estimate) + 1 else old(estimate)
    {
      hide *;
      ValidParts();
      if estimate == |processors| {
        return false;
      }
      OrderlyHas(cores, levels);
      forall c | c in cores
        ensures c.Assigned() == c.primaries + c.replicas
        ensures CoreOk(c.Assigned(), Snap(c.Assigned()), c.utilization, c.levels)
      {
        c.CoreFacts();
      }
      estimate := estimate + 1;
      forall c | c in cores ensures c.Valid() && c.Assigned() == old(c.Assigned()) {
        c.CoreFacts();
        assert forall t :: t in c.Assigned() ==> t.vd == old(t.vd);
        assert Snap(c.Assigned()) == old(Snap(c.Assigned()));
      }
      OrderlyFrom(cores, levels);
      ValidFrom();
      return true;
    }

    /** A new copy of a task. */
    method Clone(spec: TaskSpec) returns (task: Task)
      requires Valid() && ValidSpec(spec, levels)
      ensures Valid() && fresh(task) && task.spec == spec && Loose(cores, task, levels)
      ensures Layout() == old(Layout()) && TasksOf(cores) == old(TasksOf(cores))
      ensures BooksOf(cores) == old(BooksOf(cores))
    {
      hide Orderly, HasId, Wired, AllApart, CoresOf, CoreOk;
      OrderlyHas(cores, levels);
      forall c | c in cores ensures CoreOk(c.Assigned(), Snap(c.Assigned()), c.utilization, c.levels) {
        c.CoreFacts();
      }
      task := new Task(spec);
      forall c | c in cores ensures c.Valid() && c.Assigned() == old(c.Assigned()) {
        c.CoreFacts();
        assert Snap(c.Assigned()) == old(Snap(c.Assigned()));
      }
      OrderlyFrom(cores, levels);
    }

    /** Places the primary of a task, taking more processors into use as needed; fails only when every
        core of the system refuses it. */
    method PlacePrimary(spec: TaskSpec) returns (ok: bool)
      requires Valid() && ValidSpec(spec, levels) && Layout()[spec.id] == Where({}, {})
      modifies this`next, this`estimate, cores, TasksOf(cores)
      ensures Valid()
      ensures forall t :: t in TasksOf(cores) ==> t in old(TasksOf(cores)) || fresh(t)
      ensures if ok then Gained(cores, old(Layout()), Layout(), Primary, spec.id) else Layout() == old(Layout())
      ensures ok ==> CopyPlaced(old(Now()), Now(), Primary, spec, 0)
      ensures !ok ==> Now() == old(Now()).(estimate := |processors|)
      ensures !ok ==> NoPlace(BooksOf(cores), Layout(), |processors|, Primary, spec, 0)
    {
      hide *;
      ghost var was, s := Now(), Now();
      StageIs();
      var task := Clone(spec);
      StageIs();
      ok := AllocatePrimary(task);
      StageIs();
      while !ok
        invariant Valid() && was.estimate <= s.estimate == estimate && s == was.(estimate := estimate)
        invariant s.estimate > was.estimate ==> NoPlace(s.books, s.layout, s.estimate - 1, Primary, spec, 0)
        invariant !ok ==>
                    && Loose(cores, task, levels) && Now() == s && TasksOf(cores) == old(TasksOf(cores))
                    && NoPlace(s.books, s.layout, estimate, Primary, spec, 0)
        invariant ok ==>
                    && TasksOf(cores) == old(TasksOf(cores)) + {task}
                    && Gained(cores, was.layout, Layout(), Primary, spec.id)
                    && CopyPlaced(s, Now(), Primary, spec, 0) && Now().estimate == estimate
        decreases |processors| - estimate, !ok
      {
        ValidParts();
        StageIs();
        var grown := Grow();
        if !grown {
          return false;
        }
        StageIs();
        s := Now();
        ok := AllocatePrimary(task);
        StageIs();
      }
      PlacedLater(was, s, Now(), Primary, spec, 0);
    }

    /** Places one replica of a task, taking more processors into use as needed; fails only when no core
        of the system can take it. */
    method PlaceReplica(spec: TaskSpec, replicas: nat) returns (ok: bool)
      requires Valid() && ValidSpec(spec, levels) && Layout()[spec.id].primaries != {}
      modifies this`next, this`estimate, cores, TasksOf(cores)
      ensures Valid()
      ensures forall t :: t in TasksOf(cores) ==> t in old(TasksOf(cores)) || fresh(t)
      ensures if ok then Gained(cores, old(Layout()), Layout(), Replica, spec.id) else Layout() == old(Layout())
      ensures ok ==> SafelyGained(processors, old(Layout()), Layout(), spec.id, replicas)
      ensures ok ==> CopyPlaced(old(Now()), Now(), Replica, spec, replicas)
      ensures !ok ==> Now() == old(Now()).(estimate := |processors|)
      ensures !ok ==> NoPlace(BooksOf(cores), Layout(), |processors|, Replica, spec, replicas)
    {
      hide *;
      ghost var was, s := Now(), Now();
      StageIs();
      var task := Clone(spec);
      StageIs();
      var outcome := AllocateReplica(task, replicas);
      StageIs();
      while outcome != Taken
        invariant Valid() && outcome != NoPrimary
        invariant was.estimate <= s.estimate == estimate && s == was.(estimate := estimate)
        invariant s.estimate > was.estimate ==> NoPlace(s.books, s.layout, s.estimate - 1, Replica, spec, replicas)
        invariant outcome != Taken ==>
                    && Loose(cores, task, levels) && Now() == s && TasksOf(cores) == old(TasksOf(cores))
                    && NoPlace(s.books, s.layout, estimate, Replica, spec, replicas)
        invariant outcome == Taken ==>
                    && TasksOf(cores) == old(TasksOf(cores)) + {task}
                    && SafelyGained(processors, was.layout, Layout(), spec.id, replicas)
                    && Gained(cores, was.layout, Layout(), Replica, spec.id)
                    && CopyPlaced(s, Now(), Replica, spec, replicas) && Now().estimate == estimate
        decreases |processors| - estimate, outcome != Taken
      {
        ValidParts();
        StageIs();
        var grown := Grow();
        if !grown {
          return false;
        }
        StageIs();
        s := Now();
        outcome := AllocateReplica(task, replicas);
        StageIs();
      }
      PlacedLater(was, s, Now(), Replica, spec, replicas);
      return true;
    }

    /** A task cannot be placed any further: every core refuses its primary, or no core can take one of
        the replicas still missing. */
    ghost predicate Unplaceable(b: Books, h: Placement, r: Request) {
      || (h[r.spec.id] == Where({}, {}) && NoPlace(b, h, |processors|, Primary, r.spec, 0))
      || (Complete(h[r.spec.id], |h[r.spec.id].replicas|) && |h[r.spec.id].replicas| < r.replicas
          && NoPlace(b, h, |processors|, Replica, r.spec, r.replicas))
    }

    lemma PrimaryMissing(b: Books, h: Placement, r: Request)
      requires h[r.spec.id] == Where({}, {}) && NoPlace(b, h, |processors|, Primary, r.spec, 0)
      ensures Unplaceable(b, h, r)
    {
      hide NoPlace;
    }

    lemma ReplicaMissing(b: Books, h: Placement, r: Request, k: nat)
      requires Complete(h[r.spec.id], k) && k < r.replicas
      requires NoPlace(b, h, |processors|, Replica, r.spec, r.replicas)
      ensures Unplaceable(b, h, r)
    {
      hide NoPlace;
    }

    /** The copies of one task, placed one after the other, the primary first. */
    ghost predicate Copies(trace: seq<Stage>, r: Request) {
      forall j :: 0 <= j < |trace| - 1 ==>
        if j == 0 then CopyPlaced(trace[j], trace[j + 1], Primary, r.spec, 0)
        else CopyPlaced(trace[j], trace[j + 1], Replica, r.spec, r.replicas)
    }

    lemma CopiesMore(trace: seq<Stage>, s: Stage, r: Request)
      requires Copies(trace, r) && trace != []
      requires if |trace| == 1 then CopyPlaced(trace[0], s, Primary, r.spec, 0)
               else CopyPlaced(trace[|trace| - 1], s, Replica, r.spec, r.replicas)
      ensures Copies(trace + [s], r)
    {
      hide CopyPlaced;
    }

    lemma CopiesStart(s: Stage, r: Request)
      ensures Copies([s], r)
    {
    }

    /** The tasks placed one after the other, in the order given, each with all its copies. */
    ghost predicate Course(traces: seq<seq<Stage>>, rs: seq<Request>, s: Stage, s': Stage)
      decreases |traces|
    {
      && |traces| == |rs|
      && if traces == [] then s == s'
         else
           var n := |traces| - 1;
           && |traces[n]| == rs[n].replicas + 2 && Copies(traces[n], rs[n])
           && traces[n][|traces[n]| - 1] == s' && Course(traces[..n], rs[..n], s, traces[n][0])
    }

    lemma CourseMore(traces: seq<seq<Stage>>, rs: seq<Request>, s: Stage, trace: seq<Stage>, r: Request)
      requires trace != [] && Course(traces, rs, s, trace[0]) && Copies(trace, r) && |trace| == r.replicas + 2
      ensures Course(traces + [trace], rs + [r], s, trace[|trace| - 1])
    {
      hide Copies;
      assert (traces + [trace])[..|traces|] == traces && (rs + [r])[..|rs|] == rs;
    }

    lemma {:induction false} CourseConcat(t1: seq<seq<Stage>>, r1: seq<Request>, s: Stage, m: Stage,
                                          t2: seq<seq<Stage>>, r2: seq<Request>, s': Stage)
      requires Course(t1, r1, s, m) && Course(t2, r2, m, s')
      ensures Course(t1 + t2, r1 + r2, s, s')
      decreases |t2|
    {
      hide Copies;
      if t2 == [] {
        assert t1 + t2 == t1 && r1 + r2 == r1;
      } else {
        var n := |t2| - 1;
        CourseConcat(t1, r1, s, m, t2[..n], r2[..n], t2[n][0]);
        assert (t1 + t2)[..|t1| + n] == t1 + t2[..n] && (r1 + r2)[..|r1| + n] == r1 + r2[..n];
      }
    }

    lemma CourseStart(s: Stage, rs: seq<Request>)
      ensures Course([], rs[..0], s, s)
    {
    }

    /** Places a task completely; fails only if it cannot be placed any further. */
    method PlaceTask(r: Request) returns (ok: bool, ghost trace: seq<Stage>)
      requires Valid() && ValidSpec(r.spec, levels) && Layout()[r.spec.id] == Where({}, {})
      modifies this`next, this`estimate, cores, TasksOf(cores)
      ensures Valid()
      ensures forall t :: t in TasksOf(cores) ==> t in old(TasksOf(cores)) || fresh(t)
      ensures ok ==> Complete(Layout()[r.spec.id], r.replicas)
      ensures !ok ==> Unplaceable(BooksOf(cores), Layout(), r)
      ensures OnlyFor(old(Layout()), Layout(), r.spec.id)
      ensures trace != [] && trace[0] == old(Now()) && Copies(trace, r)
      ensures if ok then |trace| == r.replicas + 2 && Now() == trace[|trace| - 1]
              else |trace| < r.replicas + 2 && Now() == trace[|trace| - 1].(estimate := |processors|)
    {
      hide *;
      ghost var id := r.spec.id;
      ghost var h := Layout();
      OnlyForSame(h, id);
      trace := [Now()];
      CopiesStart(Now(), r);
      ok := PlacePrimary(r.spec);
      if !ok {
        PrimaryMissing(BooksOf(cores), Layout(), r);
        return;
      }
      CopiesMore(trace, Now(), r);
      trace := trace + [Now()];
      GainedCount(cores, h, Layout(), Primary, id);
      for k := 0 to r.replicas
        invariant Valid() && Complete(Layout()[id], k) && OnlyFor(h, Layout(), id)
        invariant forall t :: t in TasksOf(cores) ==> t in old(TasksOf(cores)) || fresh(t)
        invariant |trace| == k + 2 && trace[0] == old(Now()) && trace[k + 1] == Now() && Copies(trace, r)
      {
        ghost var before := Layout();
        CompleteNotEmpty(before[id], k);
        OnlyForSame(before, id);
        ok := PlaceReplica(r.spec, r.replicas);
        if !ok {
          ReplicaMissing(BooksOf(cores), Layout(), r, k);
          return;
        }
        CopiesMore(trace, Now(), r);
        trace := trace + [Now()];
        GainedCount(cores, before, Layout(), Replica, id);
        OnlyForChain(h, before, Layout(), id);
      }
      return true, trace;
    }

    /** Places a group of tasks one after the other; fails only at one that cannot be placed. `at` is where
        the tasks before that one have led to. */
    method AllocateTasks(group: seq<Request>) returns (ok: bool, ghost traces: seq<seq<Stage>>, ghost at: Stage)
      requires Valid() && DistinctRequests(group)
      requires forall i :: 0 <= i < |group| ==>
                 ValidSpec(group[i].spec, levels) && Layout()[group[i].spec.id] == Where({}, {})
      modifies this`next, this`estimate, cores, TasksOf(cores)
      ensures Valid()
      ensures forall t :: t in TasksOf(cores) ==> t in old(TasksOf(cores)) || fresh(t)
      ensures ok ==> forall i :: 0 <= i < |group| ==> Complete(Layout()[group[i].spec.id], group[i].replicas)
      ensures forall id: nat :: !Asked(group, id) ==> Layout()[id] == old(Layout())[id]
      ensures |traces| <= |group| && Course(traces, group[..|traces|], old(Now()), at)
      ensures if ok then |traces| == |group| && at == Now()
              else |traces| < |group| && Unplaceable(BooksOf(cores), Layout(), group[|traces|])
    {
      hide *;
      ok := true;
      ghost var h := Layout();
      traces, at := [], Now();
      CourseStart(at, group);
      for k := 0 to |group|
        invariant Valid() && ok
        invariant forall t :: t in TasksOf(cores) ==> t in old(TasksOf(cores)) || fresh(t)
        invariant forall i :: 0 <= i < k ==> Complete(Layout()[group[i].spec.id], group[i].replicas)
        invariant forall i :: k <= i < |group| ==> Layout()[group[i].spec.id] == Where({}, {})
        invariant forall id: nat :: !Asked(group, id) ==> Layout()[id] == h[id]
        invariant |traces| == k && at == Now() && Course(traces, group[..k], old(Now()), at)
      {
        ghost var before := Layout();
        ghost var trace;
        ok, trace := PlaceTask(group[k]);
        OnlyForOthers(before, Layout(), group, k);
        if !ok {
          return;
        }
        CourseMore(traces, group[..k], old(Now()), trace, group[k]);
        assert group[..k + 1] == group[..k] + [group[k]];
        traces, at := traces + [trace], Now();
      }
      assert group[..|group|] == group;
    }

    /** Places all tasks, group by group, in the order given. If that succeeds, every task has one
        primary and the number of replicas asked for, all on different processors of this system,
        and every core is in order; it fails only at a task that cannot be placed, once all before it have
        been. */
    method Run(groups: seq<seq<Request>>) returns (ok: bool, ghost traces: seq<seq<Stage>>, ghost at: Stage)
      requires Valid() && DistinctGroups(groups) && forall id: nat :: Layout()[id] == Where({}, {})
      requires forall g, i :: 0 <= g < |groups| && 0 <= i < |groups[g]| ==> ValidSpec(groups[g][i].spec, levels)
      modifies this`next, this`estimate, cores, TasksOf(cores)
      ensures Valid()
      ensures ok ==> forall g, i :: 0 <= g < |groups| && 0 <= i < |groups[g]| ==>
                Complete(Layout()[groups[g][i].spec.id], groups[g][i].replicas)
      ensures forall id: nat :: Apart(Layout()[id])
      ensures forall id: nat :: (forall g :: 0 <= g < |groups| ==> !Asked(groups[g], id)) ==>
                Layout()[id] == Where({}, {})
      ensures |traces| <= |Flat(groups)| && Course(traces, Flat(groups)[..|traces|], old(Now()), at)
      ensures if ok then |traces| == |Flat(groups)| && at == Now()
              else |traces| < |Flat(groups)| && Unplaceable(BooksOf(cores), Layout(), Flat(groups)[|traces|])
    {
      hide *;
      ok := true;
      AllSpread();
      traces, at := [], Now();
      CourseStart(at, []);
      FlatStart(groups);
      for g := 0 to |groups|
        invariant Valid() && ok && forall id: nat :: Apart(Layout()[id])
        invariant forall t :: t in TasksOf(cores) ==> t in old(TasksOf(cores)) || fresh(t)
        invariant forall x, i :: 0 <= x < g && 0 <= i < |groups[x]| ==>
                    Complete(Layout()[groups[x][i].spec.id], groups[x][i].replicas)
        invariant forall id: nat :: (forall x :: 0 <= x < g ==> !Asked(groups[x], id)) ==> Layout()[id] == Where({}, {})
        invariant at == Now() && |traces| == |Flat(groups[..g])| && Course(traces, Flat(groups[..g]), old(Now()), at)
      {
        NextGroup(groups, g);
        FlatNext(groups, g);
        if groups[g] == [] {
          continue;
        }
        ghost var more, mid := [], at;
        ok, more, at := AllocateTasks(groups[g]);
        AllSpread();
        CourseConcat(traces, Flat(groups[..g]), old(Now()), mid, more, groups[g][..|more|], at);
        FlatPart(groups, g, |more|);
        traces := traces + more;
        if !ok {
          return;
        }
        assert groups[g][..|more|] == groups[g];
      }
      assert groups[..|groups|] == groups && Flat(groups)[..|traces|] == Flat(groups);
    }

    lemma AllSpread()
      requires Valid()
      ensures forall id: nat :: Apart(Layout()[id])
    {
    }

    /** What being in order means for each core: its recorded utilization is the sum over its tasks
        at every level and at most one, and its processor number is in range. */
    lemma CoresInOrder(c: Core)
      requires Valid() && c in cores
      ensures c.processorId < |processors| && |c.utilization| == levels
      ensures AllValid(Snap(c.Assigned()), levels)
      ensures forall m :: 0 <= m < levels ==> c.utilization[m] == TotalUtil(Snap(c.Assigned()), m, levels) <= 1.0
    {
      hide TotalUtil, PairSettled, Chained;
      assert c.Valid() && c.levels == levels;
    }

    /** A processor that is not the primary's and has no replica has no copy at all. */
    lemma OtherProcessor(p: Processor, primary: Processor, id: nat)
      requires Wired(processors) && cores == CoresOf(processors) && AllApart(Layout()) && p in processors
      requires primary in processors && p.id != primary.id
      requires HostOn(primary, Layout()[id].primaries)
      requires !exists c :: c in p.cores && HasId(c.replicas, id)
      ensures !HostOn(p, Layout()[id].primaries)
    {
      hide HasId;
      var c :| c in primary.cores && c in Layout()[id].primaries;
      assert Apart(Layout()[id]);
      forall d | d in p.cores ensures d !in Layout()[id].primaries {
        assert d.processorId == p.id && c.processorId == primary.id;
        if d in Layout()[id].primaries {
          OneHost(Layout()[id].primaries, c, d);
        }
      }
    }
  }

  lemma NoCopy(p: Processor, w: Where)
    requires !HasCopy(p, w)
    ensures forall d :: d in p.cores ==> d !in w.primaries && d !in w.replicas
  {
  }

  lemma HasOwn(ts: seq<Task>, t: Task)
    requires t in ts
    ensures HasId(ts, t.spec.id)
  {
  }

  lemma OwnOf(ts: seq<Task>, id: nat) returns (t: Task)
    requires HasId(ts, id)
    ensures t in ts && t.spec.id == id
  {
    t :| t in ts && t.spec.id == id;
  }

  lemma OneHost(s: set<Core>, c: Core, d: Core)
    requires |s| <= 1 && c in s && d in s
    ensures c == d
  {
    if c != d {
      SubsetSize({c, d}, s);
    }
  }

  /** With a single replica per task, a core is passed over if one of its primaries has its own
      replica on the processor of the primary at hand. */
  method SafeCores(p: Processor, primary: Processor, replicas: nat) returns (safe: seq<bool>)
    ensures |safe| == |p.cores|
    ensures forall k :: 0 <= k < |safe| ==> (safe[k] <==> replicas != 1 || !MutualBackup(p.cores[k].primaries, primary))
  {
    hide MutualBackup;
    safe := [];
    for k := 0 to |p.cores|
      invariant |safe| == k
      invariant forall x :: 0 <= x < k ==> (safe[x] <==> replicas != 1 || !MutualBackup(p.cores[x].primaries, primary))
    {
      var isSafe := true;
      if replicas == 1 {
        var mutual := HasMutualBackup(p.cores[k].primaries, primary);
        isSafe := !mutual;
      }
      safe := safe + [isSafe];
    }
  }

  ghost predicate MutualBackup(others: seq<Task>, primary: Processor)
    reads primary.cores
  {
    exists t :: t in others && exists c :: c in primary.cores && HasId(c.replicas, t.spec.id)
  }

  method HasMutualBackup(others: seq<Task>, primary: Processor) returns (mutual: bool)
    ensures mutual <==> MutualBackup(others, primary)
  {
    hide HasId;
    for j := 0 to |others|
      invariant forall x :: 0 <= x < j ==> !exists c :: c in primary.cores && HasId(c.replicas, others[x].spec.id)
    {
      var backed := primary.ContainsTaskReplica(others[j].spec.id);
      if backed {
        assert others[j] in others;
        return true;
      }
    }
    return false;
  }

  // ---- setting up ---------------------------------------------------------------------------

  function OwnShare(r: Request): real
    requires r.spec.period > 0 && r.spec.crit < |r.spec.wcet|
  {
    r.spec.wcet[r.spec.crit] as real / r.spec.period as real * (r.replicas + 1) as real
  }

  function TotalShare(rs: seq<Request>): real
    requires forall i :: 0 <= i < |rs| ==> rs[i].spec.period > 0 && rs[i].spec.crit < |rs[i].spec.wcet|
  {
    if rs == [] then 0.0 else TotalShare(rs[..|rs| - 1]) + OwnShare(rs[|rs| - 1])
  }

  /** A task counts with its utilization at its own level, once for each copy. */
  lemma ShareOfCopies(r: Request, levels: nat)
    requires ValidSpec(r.spec, levels)
    ensures r.replicas == 0 ==> OwnShare(r) == TaskUtil(r.spec, r.spec.crit, levels)
    ensures OwnShare(r.(replicas := r.replicas + 1)) == OwnShare(r) + TaskUtil(r.spec, r.spec.crit, levels)
  {
    var u, n := r.spec.wcet[r.spec.crit] as real / r.spec.period as real, (r.replicas + 1) as real;
    assert u * (n + 1.0) == u * n + u;
  }

  /** Enough processors for the total load and for the copies of each task, and no more than that. */
  ghost predicate IsEstimate(tasks: seq<Request>, coresPerProc: nat, estimate: nat)
    requires forall i :: 0 <= i < |tasks| ==> tasks[i].spec.period > 0 && tasks[i].spec.crit < |tasks[i].spec.wcet|
  {
    && estimate >= 1
    && TotalShare(tasks) <= (estimate * coresPerProc) as real
    && (forall i :: 0 <= i < |tasks| ==> tasks[i].replicas + 1 <= estimate)
    && (estimate > 1 ==>
          || TotalShare(tasks) > ((estimate - 1) * coresPerProc) as real
          || exists i :: 0 <= i < |tasks| && tasks[i].replicas + 1 == estimate)
  }

  /** The number of processors to start with: the least number whose cores could carry the total
      load and that leaves a separate processor for every copy of a task. */
  method EstimateProcessors(tasks: seq<Request>, coresPerProc: nat) returns (estimate: nat)
    requires coresPerProc > 0
    requires forall i :: 0 <= i < |tasks| ==> tasks[i].spec.period > 0 && tasks[i].spec.crit < |tasks[i].spec.wcet|
    ensures IsEstimate(tasks, coresPerProc, estimate)
  {
    hide OwnShare;
    var total, maxReplicas := 0.0, 0;
    for i := 0 to |tasks|
      invariant total == TotalShare(tasks[..i])
      invariant forall k :: 0 <= k < i ==> tasks[k].replicas <= maxReplicas
      invariant maxReplicas > 0 ==> exists k :: 0 <= k < i && tasks[k].replicas == maxReplicas
    {
      assert tasks[..i + 1][..i] == tasks[..i];
      total := total + OwnShare(tasks[i]);
      if tasks[i].replicas > maxReplicas {
        maxReplicas := tasks[i].replicas;
      }
    }
    assert tasks[..|tasks|] == tasks;
    var quotient := total / coresPerProc as real;
    var byLoad := -(-quotient).Floor;
    LoadCarried(total, coresPerProc, quotient, byLoad);
    estimate := if byLoad > maxReplicas + 1 then byLoad else maxReplicas + 1;
    Scaled(byLoad, estimate, coresPerProc);
    assert estimate > 1 && estimate != byLoad ==> exists k :: 0 <= k < |tasks| && tasks[k].replicas + 1 == estimate;
  }

  lemma LoadCarried(total: real, n: nat, q: real, k: int)
    requires n > 0 && q == total / n as real && k == -(-q).Floor
    ensures total <= (k * n) as real && total > ((k - 1) * n) as real
  {
    var m, high, low := n as real, k as real, (k - 1) as real;
    assert q * m == total;
    assert low < q <= high;
    Grow(q, high, m);
    GrowStrict(low, q, m);
    CastProduct(k, n);
    CastProduct(k - 1, n);
  }

  lemma {:induction false} CastProduct(k: int, n: nat)
    ensures (k * n) as real == k as real * n as real
  {
    if n > 0 {
      CastProduct(k, n - 1);
      assert k * n == k * (n - 1) + k;
      assert k as real * n as real == k as real * (n - 1) as real + k as real;
    }
  }

  lemma Grow(a: real, b: real, m: real)
    requires a <= b && m > 0.0
    ensures a * m <= b * m
  {
  }

  lemma GrowStrict(a: real, b: real, m: real)
    requires a < b && m > 0.0
    ensures a * m < b * m
  {
  }

  lemma Scaled(a: int, b: int, n: nat)
    requires a <= b
    ensures a * n <= b * n
  {
  }

  /** A new processor with empty cores. */
  method NewProcessor(id: nat, coresPerProc: nat, levels: nat) returns (p: Processor)
    requires levels > 0
    ensures fresh(p) && p.id == id && |p.cores| == coresPerProc
    ensures forall c :: c in p.cores ==> fresh(c) && c.processorId == id && Empty(c, levels)
  {
    var cores: seq<Core> := [];
    for k := 0 to coresPerProc
      invariant |cores| == k
      invariant forall c :: c in cores ==> fresh(c) && c.processorId == id && Empty(c, levels)
    {
      var c := new Core(k, id, levels);
      cores := cores + [c];
    }
    p := new Processor(id, cores);
  }

  ghost predicate Empty(c: Core, levels: nat)
    reads c, c.Assigned()
  {
    c.levels == levels && c.Valid() && c.primaries == [] && c.replicas == []
  }

  lemma EmptyOrderly(cores: set<Core>, levels: nat)
    requires forall c :: c in cores ==> Empty(c, levels)
    ensures Orderly(cores, levels)
    ensures forall c :: c in cores ==> c.primaries == [] && c.replicas == []
  {
  }

  /** The allocator for a system, unless the estimate already exceeds its processors. */
  method NewAllocator(tasks: seq<Request>, numProcs: nat, coresPerProc: nat, levels: nat) returns (a: Allocator?)
    requires levels > 0 && coresPerProc > 0
    requires forall i :: 0 <= i < |tasks| ==> tasks[i].spec.period > 0 && tasks[i].spec.crit < |tasks[i].spec.wcet|
    ensures a != null ==>
              && fresh(a) && fresh(a.cores) && a.Valid() && a.levels == levels && |a.processors| == numProcs
              && TasksOf(a.cores) == {} && (forall id: nat :: a.Layout()[id] == Where({}, {}))
              && a.next == 0 && IsEstimate(tasks, coresPerProc, a.estimate)
    ensures a == null ==>
              || numProcs == 0
              || TotalShare(tasks) > (numProcs * coresPerProc) as real
              || (exists i :: 0 <= i < |tasks| && tasks[i].replicas >= numProcs)
  {
    var ps: seq<Processor> := [];
    ghost var all: set<Core> := {};
    for i := 0 to numProcs
      invariant |ps| == i && forall k :: 0 <= k < i ==> ps[k].id == k
      invariant forall k, c :: 0 <= k < i && c in ps[k].cores ==> c.processorId == k && c in all
      invariant forall c :: c in all ==> fresh(c) && Empty(c, levels)
    {
      var p := NewProcessor(i, coresPerProc, levels);
      all := all + CoreSet(p);
      ps := ps + [p];
    }
    var estimate := EstimateProcessors(tasks, coresPerProc);
    if estimate > numProcs {
      Scaled(numProcs, estimate - 1, coresPerProc);
      return null;
    }
    SubsetOf(ps, all);
    EmptyOrderly(CoresOf(ps), levels);
    a := new Allocator(ps, levels, estimate);
  }

  ghost function CoreSet(p: Processor): set<Core> {
    set c | c in p.cores
  }

  lemma SubsetOf(ps: seq<Processor>, all: set<Core>)
    requires forall k, c :: 0 <= k < |ps| && c in ps[k].cores ==> c.processorId == ps[k].id && c in all
    requires forall k :: 0 <= k < |ps| ==> ps[k].id == k
    ensures CoresOf(ps) <= all && Wired(ps)
  {
  }
}

