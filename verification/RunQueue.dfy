/** The run queues of one core: which job runs, which wait, and what a mode change does to them. */
module RunQueue {
  import opened Common
  import opened Sorted

  /** `relative` and `budgets` give the relative virtual deadline and the WCET for every level. */
  datatype Job = Job(
    id: nat, replica: bool, crit: nat, offered: bool, arrival: nat,
    relative: seq<nat>, budgets: seq<nat>, deadline: nat, wcet: nat)

  function Deadline(j: Job): nat { j.deadline }

  /** The job as it is at criticality level `level`. */
  function Retuned(j: Job, level: nat): Job {
    if level < |j.relative| && level < |j.budgets|
    then j.(deadline := j.arrival + j.relative[level], wcet := j.budgets[level])
    else j
  }

  function RetunedAll(q: seq<Job>, level: nat): (r: seq<Job>)
    ensures |r| == |q| && forall i :: 0 <= i < |q| ==> r[i] == Retuned(q[i], level)
  {
    seq(|q|, i requires 0 <= i < |q| => Retuned(q[i], level))
  }

  /** A job below the level leaves its queue, unless it is on offer to another core. */
  predicate Stays(j: Job, level: nat) {
    level <= j.crit || j.offered
  }

  function Kept(q: seq<Job>, level: nat): (r: seq<Job>)
    ensures forall j :: j in r ==> Stays(j, level)
  {
    if q == [] then []
    else if Stays(q[0], level) then [Retuned(q[0], level)] + Kept(q[1..], level)
    else Kept(q[1..], level)
  }

  function Dropped(q: seq<Job>, level: nat): (r: seq<Job>)
    ensures forall j :: j in r ==> !Stays(j, level)
  {
    if q == [] then []
    else if Stays(q[0], level) then Dropped(q[1..], level)
    else [Retuned(q[0], level)] + Dropped(q[1..], level)
  }

  lemma {:induction false} NothingLost(q: seq<Job>, level: nat)
    ensures multiset(Kept(q, level)) + multiset(Dropped(q, level)) == multiset(RetunedAll(q, level))
  {
    if q == [] {
    } else {
      NothingLost(q[1..], level);
      assert RetunedAll(q, level) == [Retuned(q[0], level)] + RetunedAll(q[1..], level);
    }
  }

  /** Membership of what is kept and dropped. */
  lemma {:induction false} KeptExactly(q: seq<Job>, level: nat, j: Job)
    requires j in q
    ensures Stays(j, level) ==> Retuned(j, level) in Kept(q, level)
    ensures !Stays(j, level) ==> Retuned(j, level) in Dropped(q, level)
  {
    if j != q[0] {
      KeptExactly(q[1..], level, j);
    }
  }

  /** A queue as the core keeps it: sorted by deadline and of one kind. */
  ghost predicate QueueOk(q: seq<Job>, replica: bool) {
    Ordered(q, Deadline) && forall j :: j in q ==> j.replica == replica
  }

  lemma InsertQueue(q: seq<Job>, j: Job)
    requires QueueOk(q, j.replica)
    ensures QueueOk(Insert(q, j, Deadline), j.replica)
    ensures multiset(Insert(q, j, Deadline)) == multiset(q) + multiset{j}
    ensures forall x :: x in Insert(q, j, Deadline) <==> x in q || x == j
  {
    InsertMembers(q, j, Deadline);
    InsertOrdered(q, j, Deadline);
  }

  lemma PopQueue(q: seq<Job>, replica: bool)
    requires QueueOk(q, replica) && q != []
    ensures QueueOk(q[1..], replica) && q[0].replica == replica
    ensures forall j :: j in q ==> q[0].deadline <= j.deadline
    ensures multiset(q) == multiset(q[1..]) + multiset{q[0]}
    ensures forall j :: j in q <==> j == q[0] || j in q[1..]
  {
    TailOrdered(q, Deadline);
    assert q == [q[0]] + q[1..];
    forall j | j in q ensures q[0].deadline <= j.deadline {
      var i :| 0 <= i < |q| && q[i] == j;
      assert Deadline(q[0]) <= Deadline(q[i]);
    }
  }

  lemma RemoveQueue(q: seq<Job>, replica: bool, i: nat)
    requires QueueOk(q, replica) && i < |q|
    ensures QueueOk(q[..i] + q[i + 1..], replica)
    ensures forall j :: j in q[..i] + q[i + 1..] ==> j in q
    ensures multiset(q) == multiset(q[..i] + q[i + 1..]) + multiset{q[i]}
  {
    var r := q[..i] + q[i + 1..];
    forall a, b | 0 <= a < b < |r| ensures Deadline(r[a]) <= Deadline(r[b]) {
      assert r[a] == q[if a < i then a else a + 1] && r[b] == q[if b < i then b else b + 1];
    }
    assert q == q[..i] + [q[i]] + q[i + 1..];
  }

  function Held(running: Option<Job>): multiset<Job> {
    if running.Some? then multiset{running.value} else multiset{}
  }

  // ---- the queues as a value ----------------------------------------------------------------

  datatype Queues = Queues(ready: seq<Job>, replicas: seq<Job>, discarded: seq<Job>, running: Option<Job>)

  ghost predicate Ok(q: Queues) {
    QueueOk(q.ready, false) && QueueOk(q.replicas, true) && Ordered(q.discarded, Deadline)
  }

  predicate Queued(q: Queues, j: Job) {
    j in q.ready || j in q.replicas
  }

  /** Every job the core holds. */
  function Contents(q: Queues): multiset<Job> {
    multiset(q.ready) + multiset(q.replicas) + multiset(q.discarded) + Held(q.running)
  }

  /** The running job has the earliest virtual deadline; nothing runs only if nothing waits. */
  ghost predicate EarliestFirst(q: Queues) {
    if q.running.Some? then forall j :: Queued(q, j) ==> q.running.value.deadline <= j.deadline
    else forall j :: !Queued(q, j)
  }

  /** `next` was chosen to run next; without a choice the present state is already in order. */
  ghost predicate Chosen(q: Queues, next: Option<Job>) {
    if next.None? then EarliestFirst(q)
    else (forall j :: Queued(q, j) ==> next.value.deadline <= j.deadline)
         && (q.running.Some? ==> next.value.deadline < q.running.value.deadline)
  }

  /** Files a job in the queue of its kind. */
  function Enqueued(q: Queues, j: Job): Queues {
    if j.replica then q.(replicas := Insert(q.replicas, j, Deadline)) else q.(ready := Insert(q.ready, j, Deadline))
  }

  lemma EnqueuedOk(q: Queues, j: Job)
    requires Ok(q)
    ensures Ok(Enqueued(q, j)) && Contents(Enqueued(q, j)) == Contents(q) + multiset{j}
    ensures forall x :: Queued(Enqueued(q, j), x) <==> Queued(q, x) || x == j
  {
    hide Ordered, Insert;
    InsertQueue(if j.replica then q.replicas else q.ready, j);
  }

  /** A job that arrives, or comes from another core, is retuned; below the level it is discarded. */
  function Arrived(q: Queues, job: Job, level: nat): Queues {
    var j := Retuned(job, level);
    if j.crit < level then q.(discarded := Insert(q.discarded, j, Deadline)) else Enqueued(q, j)
  }

  /** The job has been filed, with the deadline and the budget of the level: on the discard list below the
      level, otherwise in the queue of its kind; the other lists are as before. */
  ghost predicate ArrivedAt(q: Queues, q': Queues, job: Job, level: nat) {
    level < |job.relative| && level < |job.budgets| ==>
      var j := job.(deadline := job.arrival + job.relative[level], wcet := job.budgets[level]);
      && q'.running == q.running
      && multiset(q'.discarded) == multiset(q.discarded) + (if job.crit < level then multiset{j} else multiset{})
      && multiset(q'.ready)
         == multiset(q.ready) + (if job.crit >= level && !job.replica then multiset{j} else multiset{})
      && multiset(q'.replicas)
         == multiset(q.replicas) + (if job.crit >= level && job.replica then multiset{j} else multiset{})
  }

  lemma ArrivedOk(q: Queues, job: Job, level: nat)
    requires Ok(q)
    ensures Ok(Arrived(q, job, level))
    ensures Contents(Arrived(q, job, level)) == Contents(q) + multiset{Retuned(job, level)}
    ensures ArrivedAt(q, Arrived(q, job, level), job, level)
  {
    hide Ordered, Insert, ArrivedAt;
    var j := Retuned(job, level);
    EnqueuedOk(q, j);
    InsertMembers(q.discarded, j, Deadline);
    InsertOrdered(q.discarded, j, Deadline);
    ArrivedThere(q, job, level);
  }

  lemma ArrivedThere(q: Queues, job: Job, level: nat)
    ensures ArrivedAt(q, Arrived(q, job, level), job, level)
  {
    hide Insert, Enqueued;
    var j := Retuned(job, level);
    InsertMembers(q.discarded, j, Deadline);
    EnqueuedThere(q, j);
  }

  lemma EnqueuedThere(q: Queues, j: Job)
    ensures Enqueued(q, j).running == q.running && Enqueued(q, j).discarded == q.discarded
    ensures multiset(Enqueued(q, j).ready) == multiset(q.ready) + (if j.replica then multiset{} else multiset{j})
    ensures multiset(Enqueued(q, j).replicas) == multiset(q.replicas) + (if j.replica then multiset{j} else multiset{})
  {
    hide Insert;
    InsertMembers(if j.replica then q.replicas else q.ready, j, Deadline);
  }

  /** Without the job at the front of one of the two queues. */
  function Popped(q: Queues, replica: bool): Queues
    requires if replica then q.replicas != [] else q.ready != []
  {
    if replica then q.(replicas := q.replicas[1..]) else q.(ready := q.ready[1..])
  }

  function Front(q: Queues, replica: bool): Job
    requires if replica then q.replicas != [] else q.ready != []
  {
    if replica then q.replicas[0] else q.ready[0]
  }

  /** Taking the front of a queue that is no later than the front of the other one. */
  lemma PoppedOk(q: Queues, replica: bool)
    requires Ok(q) && (if replica then q.replicas != [] else q.ready != [])
    requires q.ready != [] && q.replicas != [] ==> Front(q, replica).deadline <= Front(q, !replica).deadline
    ensures Ok(Popped(q, replica)) && Contents(q) == Contents(Popped(q, replica)) + multiset{Front(q, replica)}
    ensures Front(q, replica).replica == replica
    ensures forall j :: Queued(q, j) ==> Front(q, replica).deadline <= j.deadline
    ensures forall j :: Queued(Popped(q, replica), j) ==> Queued(q, j)
  {
    hide Ordered;
    if q.ready != [] {
      PopQueue(q.ready, false);
    }
    if q.replicas != [] {
      PopQueue(q.replicas, true);
    }
  }

  /** Without the waiting job at position `i`. */
  function Without(q: Queues, replica: bool, i: nat): Queues
    requires i < if replica then |q.replicas| else |q.ready|
  {
    if replica then q.(replicas := q.replicas[..i] + q.replicas[i + 1..])
    else q.(ready := q.ready[..i] + q.ready[i + 1..])
  }

  lemma WithoutOk(q: Queues, replica: bool, i: nat)
    requires Ok(q) && i < if replica then |q.replicas| else |q.ready|
    ensures Ok(Without(q, replica, i)) && (forall j :: Queued(Without(q, replica, i), j) ==> Queued(q, j))
    ensures Contents(q) == Contents(Without(q, replica, i)) + multiset{if replica then q.replicas[i] else q.ready[i]}
  {
    hide Ordered;
    RemoveQueue(if replica then q.replicas else q.ready, replica, i);
  }

  /** Another core taking a waiting job away disturbs neither a choice made nor the order reached. */
  lemma TheftHarmless(q: Queues, replica: bool, i: nat, next: Option<Job>)
    requires Ok(q) && i < if replica then |q.replicas| else |q.ready|
    ensures Chosen(q, next) ==> Chosen(Without(q, replica, i), next)
    ensures EarliestFirst(q) ==> EarliestFirst(Without(q, replica, i))
  {
    hide Ok, Contents, Queued;
    WithoutOk(q, replica, i);
  }

  lemma Cancel<T>(a: multiset<T>, b: multiset<T>, c: multiset<T>)
    requires a + c == b + c
    ensures a == b
  {
    assert forall x :: (a + c)[x] == a[x] + c[x] && (b + c)[x] == b[x] + c[x];
  }

  lemma ContentsRunning(q: Queues, r: Option<Job>)
    ensures Contents(q.(running := r)) + Held(q.running) == Contents(q) + Held(r)
  {
  }

  /** A chosen job starts; the job it preempts goes back to its queue. */
  function Dispatched(q: Queues, job: Job): Queues {
    (if q.running.Some? then Enqueued(q, q.running.value) else q).(running := Some(job))
  }

  lemma DispatchedOk(q: Queues, job: Job)
    requires Ok(q) && Chosen(q, Some(job))
    ensures Ok(Dispatched(q, job)) && EarliestFirst(Dispatched(q, job))
    ensures Contents(Dispatched(q, job)) == Contents(q) + multiset{job}
  {
    hide Ordered, Insert, Enqueued, QueueOk, Contents;
    if q.running.Some? {
      var r := Enqueued(q, q.running.value);
      EnqueuedOk(q, q.running.value);
      EnqueuedRest(q, q.running.value);
      assert forall j :: Queued(Dispatched(q, job), j) <==> Queued(r, j);
      ContentsRunning(r, Some(job));
      Cancel(Contents(Dispatched(q, job)), Contents(q) + multiset{job}, Held(q.running));
    } else {
      ContentsRunning(q, Some(job));
    }
  }

  lemma EnqueuedRest(q: Queues, j: Job)
    ensures Enqueued(q, j).running == q.running && Enqueued(q, j).discarded == q.discarded
  {
  }

  /** The running job goes back to wait. */
  function PutBack(q: Queues): Queues {
    if q.running.Some? then Enqueued(q, q.running.value).(running := None) else q
  }

  lemma PutBackOk(q: Queues)
    requires Ok(q)
    ensures Ok(PutBack(q)) && Contents(PutBack(q)) == Contents(q) && PutBack(q).running.None?
    ensures PutBack(q).discarded == q.discarded
  {
    hide Ordered, Insert, Enqueued, QueueOk, Contents;
    if q.running.Some? {
      EnqueuedOk(q, q.running.value);
      EnqueuedRest(q, q.running.value);
      ContentsRunning(Enqueued(q, q.running.value), None);
      Cancel(Contents(PutBack(q)), Contents(q), Held(q.running));
    }
  }

  lemma NoneChosen(q: Queues, next: Option<Job>)
    ensures Chosen(q, next) && next.None? ==> EarliestFirst(q)
  {
  }

  lemma NothingWaits(q: Queues)
    ensures EarliestFirst(q) && q.running.None? ==> q.ready == [] && q.replicas == []
  {
    assert q.ready != [] ==> Queued(q, q.ready[0]);
    assert q.replicas != [] ==> Queued(q, q.replicas[0]);
  }

  lemma OkRunning(q: Queues, r: Option<Job>)
    ensures Ok(q.(running := r)) == Ok(q)
  {
  }

  // ---- mode changes -------------------------------------------------------------------------

  /** The jobs a mode change looks at: the waiting ones and the running one. */
  function Active(q: Queues): seq<Job> {
    q.ready + q.replicas + if q.running.Some? then [q.running.value] else []
  }

  /** What a change to `level` makes of the queues: the running job joins its queue, the jobs that
      stay are sorted under their new deadlines, the others are on the discard list. */
  ghost predicate ModeChanged(q: Queues, q': Queues, level: nat) {
    && Ok(q') && q'.running.None?
    && multiset(q'.ready) == multiset(Kept(PutBack(q).ready, level))
    && multiset(q'.replicas) == multiset(Kept(PutBack(q).replicas, level))
    && multiset(q'.discarded)
       == multiset(q.discarded) + multiset(Dropped(PutBack(q).ready, level))
          + multiset(Dropped(PutBack(q).replicas, level))
  }

  lemma RetunedConcat(a: seq<Job>, b: seq<Job>, level: nat)
    ensures RetunedAll(a + b, level) == RetunedAll(a, level) + RetunedAll(b, level)
  {
  }

  lemma RetunedInsert(q: seq<Job>, j: Job, level: nat)
    requires Ordered(q, Deadline)
    ensures multiset(RetunedAll(Insert(q, j, Deadline), level))
         == multiset(RetunedAll(q, level)) + multiset{Retuned(j, level)}
  {
    var i := InsertPlace(q, j, Deadline);
    RetunedConcat(q[..i] + [j], q[i..], level);
    RetunedConcat(q[..i], [j], level);
    RetunedConcat(q[..i], q[i..], level);
    assert q == q[..i] + q[i..];
    assert RetunedAll([j], level) == [Retuned(j, level)];
  }

  /** The retuned jobs of both queues after the running job has joined its own. */
  lemma RetunedPutBack(q: Queues, level: nat)
    requires Ok(q)
    ensures multiset(RetunedAll(PutBack(q).ready, level)) + multiset(RetunedAll(PutBack(q).replicas, level))
         == multiset(RetunedAll(Active(q), level))
  {
    hide Ordered, Insert, RetunedAll;
    RetunedConcat(q.ready, q.replicas, level);
    RetunedConcat(q.ready + q.replicas, if q.running.Some? then [q.running.value] else [], level);
    if q.running.Some? {
      RetunedInsert(if q.running.value.replica then q.replicas else q.ready, q.running.value, level);
      assert RetunedAll([q.running.value], level) == [Retuned(q.running.value, level)];
    } else {
      assert RetunedAll([], level) == [];
    }
  }

  /** A mode change conserves the jobs the core holds: afterwards it holds what was discarded before
      and every other job, retuned. */
  lemma ModeChangeConserves(q: Queues, q': Queues, level: nat)
    requires Ok(q) && ModeChanged(q, q', level)
    ensures Contents(q') == multiset(q.discarded) + multiset(RetunedAll(Active(q), level))
  {
    hide Ok, Kept, Dropped, RetunedAll, PutBack, Active;
    var p := PutBack(q);
    NothingLost(p.ready, level);
    NothingLost(p.replicas, level);
    RetunedPutBack(q, level);
  }

  lemma ActiveWaits(q: Queues, j: Job)
    requires Ok(q) && j in Active(q)
    ensures Queued(PutBack(q), j)
  {
    hide Ordered, Insert, Enqueued, QueueOk;
    if q.running.Some? {
      EnqueuedOk(q, q.running.value);
      assert Queued(Enqueued(q, q.running.value), j);
    }
  }

  lemma SameMembers(a: seq<Job>, b: seq<Job>)
    requires multiset(a) == multiset(b)
    ensures forall x :: x in a <==> x in b
  {
    assert forall x :: x in a <==> x in multiset(a);
    assert forall x :: x in b <==> x in multiset(b);
  }

  /** A mode change moves to the discard list exactly the jobs below the new level that are not on
      offer; the rest wait, sorted by their new deadlines. */
  lemma ModeChangeSorts(q: Queues, q': Queues, level: nat, j: Job)
    requires Ok(q) && ModeChanged(q, q', level) && j in Active(q)
    ensures if Stays(j, level) then Queued(q', Retuned(j, level)) else Retuned(j, level) in q'.discarded
    ensures forall x :: Queued(q', x) ==> Stays(x, level)
  {
    hide Ok, PutBack, Kept, Dropped, Retuned, Active, Stays;
    var p := PutBack(q);
    ActiveWaits(q, j);
    SameMembers(q'.ready, Kept(p.ready, level));
    SameMembers(q'.replicas, Kept(p.replicas, level));
    SameMembers(q'.discarded, q.discarded + Dropped(p.ready, level) + Dropped(p.replicas, level));
    if j in p.ready {
      KeptExactly(p.ready, level, j);
    } else {
      KeptExactly(p.replicas, level, j);
    }
  }

  /** Where a job is after a mode change, and with which deadline and budget: it waits in the queue of its
      kind, or it is below the level and not on offer, and discarded. */
  predicate Refiled(q: Queues, j: Job, level: nat)
    requires level < |j.relative| && level < |j.budgets|
  {
    var j' := j.(deadline := j.arrival + j.relative[level], wcet := j.budgets[level]);
    if level <= j.crit || j.offered then (if j.replica then j' in q.replicas else j' in q.ready)
    else j' in q.discarded
  }

  /** After a mode change every job that ran or waited has the deadline and the budget of the new level,
      and nothing else about it has changed. */
  lemma ModeChangeSets(q: Queues, q': Queues, level: nat, j: Job)
    requires Ok(q) && ModeChanged(q, q', level) && (Queued(q, j) || q.running == Some(j))
    requires level < |j.relative| && level < |j.budgets|
    ensures Refiled(q', j, level)
  {
    hide Ordered, PutBack, Kept, Dropped, ModeChanged;
    assert j in Active(q);
    ModeChangeSorts(q, q', level, j);
    KindsKept(q, q', level);
  }

  lemma KindsKept(q: Queues, q': Queues, level: nat)
    requires ModeChanged(q, q', level)
    ensures forall j :: j in q'.ready ==> !j.replica
    ensures forall j :: j in q'.replicas ==> j.replica
  {
    hide Ordered, PutBack, Kept, Dropped;
  }

  lemma NoJobs(replica: bool, level: nat)
    ensures QueueOk([], replica) && Kept([], level) == [] && Dropped([], level) == []
  {
  }

  lemma NextJob(q: seq<Job>, level: nat)
    requires q != []
    ensures Retuned(q[0], level).replica == q[0].replica
    ensures var j := Retuned(q[0], level);
            if j.crit < level && !j.offered
            then Kept(q, level) == Kept(q[1..], level) && Dropped(q, level) == [j] + Dropped(q[1..], level)
            else Kept(q, level) == [j] + Kept(q[1..], level) && Dropped(q, level) == Dropped(q[1..], level)
  {
  }

  // ---- the core -----------------------------------------------------------------------------

  class Core {
    var ready: seq<Job>
    var replicas: seq<Job>
    var discarded: seq<Job>
    var running: Option<Job>
    var isIdle: bool
    var level: nat

    constructor ()
      ensures Valid() && Q() == Queues([], [], [], None) && level == 0
    {
      ready, replicas, discarded, running, isIdle, level := [], [], [], None, true, 0;
    }

    function Q(): Queues
      reads this
    {
      Queues(ready, replicas, discarded, running)
    }

    ghost predicate Valid()
      reads this
    {
      Ok(Q()) && (isIdle <==> running.None?)
    }

    method Enqueue(j: Job)
      requires Ok(Q())
      modifies this`ready, this`replicas
      ensures Ok(Q()) && Q() == Enqueued(old(Q()), j)
    {
      hide Ordered, QueueOk, Insert;
      EnqueuedOk(Q(), j);
      if j.replica {
        replicas := Insert(replicas, j, Deadline);
      } else {
        ready := Insert(ready, j, Deadline);
      }
    }

    method Arrive(job: Job)
      requires Valid()
      modifies this`ready, this`replicas, this`discarded
      ensures Valid() && Q() == Arrived(old(Q()), job, level) && ArrivedAt(old(Q()), Q(), job, level)
    {
      hide Ok, Insert, Enqueued, Retuned, ArrivedAt, Contents, Queued, Ordered, QueueOk;
      ArrivedOk(Q(), job, level);
      var j := Retune(job);
      if j.crit < level {
        discarded := Insert(discarded, j, Deadline);
      } else {
        Enqueue(j);
      }
    }

    method Retune(job: Job) returns (j: Job)
      ensures j == Retuned(job, level)
    {
      j := job;
      if level < |job.relative| && level < |job.budgets| {
        j := j.(deadline := job.arrival + job.relative[level], wcet := job.budgets[level]);
      }
    }

    /** Takes the most urgent waiting job out of its queue if it is more urgent than the running
        one; between equals the ready queue goes before the replicas, and the running job stays. */
    method SelectNext() returns (next: Option<Job>)
      requires Valid()
      modifies this`ready, this`replicas
      ensures Valid() && Chosen(Q(), next)
      ensures old(Contents(Q())) == Contents(Q()) + Held(next)
      ensures next.Some? && next.value.replica && old(ready) != [] ==> next.value.deadline < old(ready)[0].deadline
      ensures next.None? ==> Q() == old(Q())
      ensures next.Some? ==>
                && (if next.value.replica then old(replicas) != [] else old(ready) != [])
                && next.value == Front(old(Q()), next.value.replica)
                && Q() == Popped(old(Q()), next.value.replica)
    {
      hide Ok, Contents, Insert;
      var candidate: Option<Job> := None;
      if ready != [] && replicas != [] {
        if ready[0].deadline <= replicas[0].deadline {
          PoppedOk(Q(), false);
          candidate := Some(ready[0]);
        } else {
          PoppedOk(Q(), true);
          candidate := Some(replicas[0]);
        }
      } else if ready != [] {
        PoppedOk(Q(), false);
        candidate := Some(ready[0]);
      } else if replicas != [] {
        PoppedOk(Q(), true);
        candidate := Some(replicas[0]);
      }
      next := None;
      if candidate.Some? && (running.None? || candidate.value.deadline < running.value.deadline) {
        if !candidate.value.replica {
          next := Some(ready[0]);
          ready := ready[1..];
        } else {
          next := Some(replicas[0]);
          replicas := replicas[1..];
        }
      }
    }

    method Dispatch(job: Job)
      requires Valid() && Chosen(Q(), Some(job))
      modifies this`ready, this`replicas, this`running, this`isIdle
      ensures Valid() && EarliestFirst(Q()) && Q() == Dispatched(old(Q()), job) && running == Some(job)
    {
      hide Ok, Contents, Insert, Enqueued, EarliestFirst, Chosen;
      DispatchedOk(Q(), job);
      OkRunning(Q(), Some(job));
      if running.Some? {
        EnqueuedRest(Q(), running.value);
        Enqueue(running.value);
      }
      running := Some(job);
      isIdle := false;
    }

    /** Another core takes a waiting job away, at any moment the lock is free. */
    method Steal(replica: bool, i: nat) returns (job: Job)
      requires Valid() && i < if replica then |replicas| else |ready|
      modifies this`ready, this`replicas
      ensures Valid() && Q() == Without(old(Q()), replica, i) && old(Contents(Q())) == Contents(Q()) + multiset{job}
    {
      hide Ok, Contents, EarliestFirst;
      WithoutOk(Q(), replica, i);
      if replica {
        job := replicas[i];
        replicas := replicas[..i] + replicas[i + 1..];
      } else {
        job := ready[i];
        ready := ready[..i] + ready[i + 1..];
      }
    }

    /** The end of a tick: choose, then dispatch, while other cores may take waiting jobs away in
        between (those at the positions in `thefts`, as far as they exist). */
    method ScheduleNext(thefts: seq<(bool, nat)>)
      requires Valid()
      modifies this
      ensures Valid() && EarliestFirst(Q()) && (isIdle ==> ready == [] && replicas == [])
      ensures level == old(level) && discarded == old(discarded)
    {
      hide Ok, Contents, Insert, Chosen;
      var next := SelectNext();
      for k := 0 to |thefts|
        invariant Valid() && Chosen(Q(), next) && level == old(level) && discarded == old(discarded)
      {
        var (replica, i) := thefts[k];
        if i < if replica then |replicas| else |ready| {
          TheftHarmless(Q(), replica, i, next);
          var _ := Steal(replica, i);
        }
      }
      NoneChosen(Q(), next);
      if next.Some? {
        Dispatch(next.value);
      }
      NothingWaits(Q());
    }

    /** The running job finishes, or misses its deadline, and leaves the core. */
    method Finish() returns (job: Option<Job>)
      requires Valid()
      modifies this`running, this`isIdle
      ensures Valid() && running.None? && job == old(running)
      ensures old(Contents(Q())) == Contents(Q()) + Held(job)
    {
      hide Ok, Contents;
      ContentsRunning(Q(), None);
      OkRunning(Q(), None);
      job := running;
      running, isIdle := None, true;
    }

    /** The running job is put back to wait. */
    method Preempt()
      requires Valid()
      modifies this`ready, this`replicas, this`running, this`isIdle
      ensures Valid() && Q() == PutBack(old(Q())) && running.None?
    {
      hide Ok, Contents, Enqueued;
      if running.Some? {
        PutBackOk(Q());
        EnqueuedRest(Q(), running.value);
        OkRunning(Enqueued(Q(), running.value), None);
        Enqueue(running.value);
        running, isIdle := None, true;
      }
    }

    /** Empties a queue into the discard list and a new queue, under the present level. */
    method FilterForMode(queue: seq<Job>, ghost replica: bool) returns (dest: seq<Job>)
      requires QueueOk(queue, replica) && Ordered(discarded, Deadline)
      modifies this`discarded
      ensures QueueOk(dest, replica) && multiset(dest) == multiset(Kept(queue, level))
      ensures Ordered(discarded, Deadline)
      ensures multiset(discarded) == old(multiset(discarded)) + multiset(Dropped(queue, level))
    {
      hide Ordered, Insert, Kept, Dropped;
      dest := [];
      var src := queue;
      NoJobs(replica, level);
      while src != []
        invariant QueueOk(src, replica) && QueueOk(dest, replica) && Ordered(discarded, Deadline)
        invariant multiset(dest) + multiset(Kept(src, level)) == multiset(Kept(queue, level))
        invariant multiset(discarded) + multiset(Dropped(src, level))
               == old(multiset(discarded)) + multiset(Dropped(queue, level))
        decreases |src|
      {
        PopQueue(src, replica);
        NextJob(src, level);
        var job := Retune(src[0]);
        src := src[1..];
        if job.crit < level && !job.offered {
          InsertMembers(discarded, job, Deadline);
          InsertOrdered(discarded, job, Deadline);
          discarded := Insert(discarded, job, Deadline);
        } else {
          InsertQueue(dest, job);
          dest := Insert(dest, job, Deadline);
        }
      }
    }

    /** The core changes to another criticality level. */
    method ModeChange(newLevel: nat)
      requires Valid()
      modifies this
      ensures Valid() && level == newLevel && ModeChanged(old(Q()), Q(), newLevel)
      ensures forall j: Job :: (Queued(old(Q()), j) || old(running) == Some(j)) ==>
                newLevel < |j.relative| && newLevel < |j.budgets| ==> Refiled(Q(), j, newLevel)
    {
      hide Ordered, Insert, Kept, Dropped, QueueOk, PutBack, Refiled, Queued;
      ghost var was := Q();
      PutBackOk(Q());
      level := newLevel;
      Preempt();
      var newReady := FilterForMode(ready, false);
      var newReplicas := FilterForMode(replicas, true);
      ready, replicas := newReady, newReplicas;
      ghost var now := Q();
      forall j: Job | (Queued(was, j) || was.running == Some(j)) && newLevel < |j.relative| && newLevel < |j.budgets|
        ensures Refiled(now, j, newLevel)
      {
        ModeChangeSets(was, now, newLevel, j);
      }
    }
  }
}
