/** The life of a job of one processor: reference counts, list membership, migration tickets and the
    per-core pools. Every event is one critical section, or one atomic action outside of one; a list
    is taken as the bag of jobs on it. */
module JobLife {
  import opened Common

  /** A place in the job pool of core `owner`. */
  datatype Slot = Slot(owner: nat, index: nat)

  datatype JobState = Idle | Ready | Running | Completed | Removed

  /** The list link of a job: initialised to itself, member of a list, or cleared by unlinking. */
  datatype Link = Self | Inside | Null

  datatype Job = Job(
    refs: int, offered: bool, state: JobState, link: Link,
    pool: nat, crit: nat, replica: bool, arrival: nat)

  /** What a core's thread is doing with the job it holds in a local variable. */
  datatype Phase = Arriving | Future | Selected | Finished | Deciding(from: nat) | Accepted | Putting

  datatype Place =
    | ReadyQueue(core: nat) | ReplicaQueue(core: nat) | DiscardList(core: nat) | PendingQueue(core: nat)
    | RunningSlot(core: nat) | SharedDiscard
    | InFlight(to: nat, from: nat)
    | Hand(core: nat, phase: Phase)
    | FreeList(core: nat) | RemoteList(core: nat)

  type Lists = map<Place, multiset<Slot>>

  datatype State = State(cores: nat, now: nat, level: map<nat, nat>, jobs: map<Slot, Job>, lists: Lists)

  function In(l: Lists, h: Place): multiset<Slot> {
    if h in l then l[h] else multiset{}
  }

  function Added(l: Lists, j: Slot, h: Place): Lists {
    l[h := In(l, h) + multiset{j}]
  }

  function Taken(l: Lists, j: Slot, h: Place): Lists {
    l[h := In(l, h) - multiset{j}]
  }

  function LevelOf(s: State, c: nat): nat {
    if c in s.level then s.level[c] else 0
  }

  predicate OnFreeList(h: Place) {
    h.FreeList? || h.RemoteList?
  }

  /** The intrusive lists a job can be linked into. */
  predicate Listed(h: Place) {
    h.ReadyQueue? || h.ReplicaQueue? || h.DiscardList? || h.PendingQueue? || h.SharedDiscard?
  }

  /** The places that stand for a migration request. */
  predicate Ticket(h: Place) {
    h.InFlight? || (h.Hand? && (h.phase.Deciding? || h.phase.Accepted? || h.phase.Putting?))
  }

  /** Everything that holds a reference to the job. */
  function Holders(l: Lists, j: Slot): set<Place> {
    set h | h in l && !OnFreeList(h) && j in l[h]
  }

  /** A core between two of its actions holds no job in a local variable. */
  ghost predicate AtRest(s: State, c: nat) {
    forall p :: In(s.lists, Hand(c, p)) == multiset{}
  }

  // ---- the actions --------------------------------------------------------------------------

  /** Where core `c` files a job that is ready on it. */
  function QueueFor(c: nat, r: Job): Place {
    if r.replica then ReplicaQueue(c) else ReadyQueue(c)
  }

  function HomeFor(s: State, c: nat, r: Job): Place {
    if r.crit < LevelOf(s, c) then DiscardList(c) else QueueFor(c, r)
  }

  /** Records `r` for job `j` and moves it from `a` to `b`. */
  function Move(s: State, j: Slot, r: Job, a: Place, b: Place): State {
    s.(jobs := s.jobs[j := r], lists := Added(Taken(s.lists, j, a), j, b))
  }

  /** Records `r`, takes `j` out of `a` and drops one reference on behalf of thread `me`; the last
      reference returns the slot to its pool. */
  function Release(s: State, j: Slot, r: Job, a: Place, me: nat): State {
    var l := Taken(s.lists, j, a);
    s.(jobs := s.jobs[j := r.(refs := r.refs - 1)],
       lists := if r.refs == 1 then Added(l, j, if r.pool == me then FreeList(r.pool) else RemoteList(r.pool))
                else l)
  }

  /** Everything that other threads returned becomes the core's own free list. */
  function Refilled(l: Lists, c: nat): Lists {
    l[FreeList(c) := In(l, RemoteList(c))][RemoteList(c) := multiset{}]
  }

  /** Unlinks `j` from whatever list its link is in. */
  function Unlinked(l: Lists, j: Slot): Lists {
    map h | h in l :: if Listed(h) then l[h] - multiset{j} else l[h]
  }

  datatype Event =
    | Refill(c: nat)
    | Create(c: nat, j: Slot, crit: nat, replica: bool, future: bool, arrival: nat)
    | Enqueue(c: nat, j: Slot)
    | TakePending(c: nat, j: Slot)
    | DropPending(c: nat, j: Slot)
    | DropFuture(c: nat, j: Slot)
    | SendFuture(c: nat, j: Slot, to: nat)
    | Offer(c: nat, j: Slot, to: nat)
    | Receive(c: nat, j: Slot, from: nat)
    | Decide(c: nat, j: Slot, from: nat, admissible: bool)
    | ClearOffer(c: nat, j: Slot)
    | PutTicket(c: nat, j: Slot)
    | Select(c: nat, j: Slot)
    | Dispatch(c: nat, j: Slot)
    | Requeue(c: nat, j: Slot)
    | Complete(c: nat, j: Slot)
    | PutFinished(c: nat, j: Slot)
    | RemoveQueued(c: nat, j: Slot)
    | RemoveRunning(c: nat, j: Slot)
    | SetLevel(c: nat, newLevel: nat)
    | Filter(c: nat, j: Slot)
    | Reclaim(c: nat, j: Slot, admissible: bool)
    | ReclaimShared(c: nat, j: Slot)
    | TimerRelease(j: Slot)
    | Tick

  predicate Queued(s: State, c: nat, j: Slot)
    requires j in s.jobs
  {
    j in In(s.lists, QueueFor(c, s.jobs[j]))
  }

  ghost predicate Enabled(s: State, e: Event) {
    match e
    case Refill(c) => AtRest(s, c) && In(s.lists, FreeList(c)) == multiset{}
    case Create(c, j, _, _, future, arrival) =>
      AtRest(s, c) && j in s.jobs && j in In(s.lists, FreeList(c))
          && (if future then s.now < arrival else arrival == s.now)
    case Enqueue(c, j) => j in s.jobs && j in In(s.lists, Hand(c, Arriving))
    case TakePending(c, j) => AtRest(s, c) && j in s.jobs && j in In(s.lists, PendingQueue(c))
        && s.jobs[j].arrival == s.now
    case DropPending(c, j) =>
      AtRest(s, c) && j in s.jobs && j in In(s.lists, PendingQueue(c)) && s.jobs[j].arrival < s.now
      && s.jobs[j].crit < LevelOf(s, c)
    case DropFuture(c, j) => j in s.jobs && j in In(s.lists, Hand(c, Future))
    case SendFuture(c, j, to) => j in s.jobs && j in In(s.lists, Hand(c, Future)) && to != c
    case Offer(c, j, to) => AtRest(s, c) && j in s.jobs && Queued(s, c, j) && !s.jobs[j].offered && to != c
    case Receive(c, j, from) => AtRest(s, c) && j in s.jobs && j in In(s.lists, InFlight(c, from))
    case Decide(c, j, from, _) => j in s.jobs && j in In(s.lists, Hand(c, Deciding(from)))
    case ClearOffer(c, j) => j in s.jobs && j in In(s.lists, Hand(c, Accepted))
    case PutTicket(c, j) => j in s.jobs && j in In(s.lists, Hand(c, Putting))
    case Select(c, j) => AtRest(s, c) && j in s.jobs && Queued(s, c, j)
    case Dispatch(c, j) =>
      j in s.jobs && j in In(s.lists, Hand(c, Selected)) && In(s.lists, RunningSlot(c)) == multiset{}
    case Requeue(c, j) => j in s.jobs && j in In(s.lists, RunningSlot(c))
    case Complete(c, j) => AtRest(s, c) && j in s.jobs && j in In(s.lists, RunningSlot(c))
    case PutFinished(c, j) => j in s.jobs && j in In(s.lists, Hand(c, Finished))
    case RemoveQueued(c, j) => AtRest(s, c) && j in s.jobs && Queued(s, c, j)
    case RemoveRunning(c, j) => AtRest(s, c) && j in s.jobs && j in In(s.lists, RunningSlot(c))
    case SetLevel(c, _) => AtRest(s, c)
    case Filter(c, j) =>
      AtRest(s, c) && j in s.jobs && Queued(s, c, j) && s.jobs[j].crit < LevelOf(s, c) && !s.jobs[j].offered
    case Reclaim(c, j, _) => AtRest(s, c) && j in s.jobs && j in In(s.lists, DiscardList(c))
    case ReclaimShared(c, j) => AtRest(s, c) && j in s.jobs && j in In(s.lists, SharedDiscard)
    case TimerRelease(j) => j in s.jobs && j in In(s.lists, SharedDiscard)
    case Tick => true
  }

  /** The destination's decision on a request, taken with both run-queue locks held. */
  function Decided(s: State, c: nat, j: Slot, from: nat, admissible: bool): State
    requires j in s.jobs
  {
    var r, here := s.jobs[j], Hand(c, Deciding(from));
    if !admissible then Release(s, j, r.(offered := false), here, c)
    else if r.state == Idle && s.now < r.arrival then
      Move(s, j, r.(link := Inside, offered := false), here, PendingQueue(c))
    else if r.link != Null && r.state == Ready then
      Move(s.(lists := Added(Unlinked(s.lists, j), j, HomeFor(s, c, r))), j, r.(link := Inside), here,
          Hand(c, Accepted))
    else Release(s, j, r.(offered := false), here, c)
  }

  /** One entry of the discard list: back to a queue, on to the shared list, or dropped. */
  function Reclaimed(s: State, c: nat, j: Slot, admissible: bool): State
    requires j in s.jobs
  {
    var r := s.jobs[j];
    if admissible then Move(s, j, r, DiscardList(c), QueueFor(c, r))
    else if !r.offered then Move(s, j, r, DiscardList(c), SharedDiscard)
    else s.(jobs := s.jobs[j := r.(link := Null)], lists := Taken(s.lists, j, DiscardList(c)))
  }

  ghost function Step(s: State, e: Event): State
    requires Enabled(s, e)
  {
    match e
    case Refill(c) =>
      s.(lists := Refilled(s.lists, c))
    case Create(c, j, crit, replica, future, arrival) =>
      Move(s, j, Job(1, false, if future then Idle else Ready, Self, c, crit, replica, arrival), FreeList(c),
           Hand(c, if future then Future else Arriving))
    case Enqueue(c, j) =>
      Move(s, j, s.jobs[j].(link := Inside), Hand(c, Arriving), HomeFor(s, c, s.jobs[j]))
    case TakePending(c, j) =>
      Move(s, j, s.jobs[j].(link := Null, state := Ready), PendingQueue(c), Hand(c, Arriving))
    case DropPending(c, j) => Release(s, j, s.jobs[j].(link := Null), PendingQueue(c), c)
    case DropFuture(c, j) => Release(s, j, s.jobs[j], Hand(c, Future), c)
    case SendFuture(c, j, to) => Move(s, j, s.jobs[j], Hand(c, Future), InFlight(to, c))
    case Offer(c, j, to) =>
      s.(jobs := s.jobs[j := s.jobs[j].(offered := true, refs := s.jobs[j].refs + 1)],
         lists := Added(s.lists, j, InFlight(to, c)))
    case Receive(c, j, from) => Move(s, j, s.jobs[j], InFlight(c, from), Hand(c, Deciding(from)))
    case Decide(c, j, from, admissible) => Decided(s, c, j, from, admissible)
    case ClearOffer(c, j) => Move(s, j, s.jobs[j].(offered := false), Hand(c, Accepted), Hand(c, Putting))
    case PutTicket(c, j) => Release(s, j, s.jobs[j], Hand(c, Putting), c)
    case Select(c, j) =>
      Move(s, j, s.jobs[j].(link := Null), QueueFor(c, s.jobs[j]), Hand(c, Selected))
    case Dispatch(c, j) => Move(s, j, s.jobs[j].(state := Running), Hand(c, Selected), RunningSlot(c))
    case Requeue(c, j) =>
      Move(s, j, s.jobs[j].(state := Ready, link := Inside), RunningSlot(c), QueueFor(c, s.jobs[j]))
    case Complete(c, j) => Move(s, j, s.jobs[j].(state := Completed), RunningSlot(c), Hand(c, Finished))
    case PutFinished(c, j) => Release(s, j, s.jobs[j], Hand(c, Finished), c)
    case RemoveQueued(c, j) =>
      Release(s, j, s.jobs[j].(state := Removed, link := Null), QueueFor(c, s.jobs[j]), c)
    case RemoveRunning(c, j) => Release(s, j, s.jobs[j].(state := Removed), RunningSlot(c), c)
    case SetLevel(c, newLevel) => s.(level := s.level[c := newLevel])
    case Filter(c, j) => Move(s, j, s.jobs[j], QueueFor(c, s.jobs[j]), DiscardList(c))
    case Reclaim(c, j, admissible) => Reclaimed(s, c, j, admissible)
    case ReclaimShared(c, j) => Move(s, j, s.jobs[j], SharedDiscard, QueueFor(c, s.jobs[j]))
    case TimerRelease(j) => Release(s, j, s.jobs[j].(link := Null), SharedDiscard, s.cores)
    case Tick => s.(now := s.now + 1)
  }

  // ---- the invariant ------------------------------------------------------------------------

  /** What a job on place `h` looks like. */
  predicate PlaceOk(r: Job, h: Place, j: Slot) {
    match h
    case ReadyQueue(_) => r.state == Ready && r.link == Inside && !r.replica
    case ReplicaQueue(_) => r.state == Ready && r.link == Inside && r.replica
    case DiscardList(_) => r.state == Ready && r.link == Inside
    case PendingQueue(_) => r.state == Idle && r.link == Inside && !r.offered
    case SharedDiscard => r.state == Ready && r.link == Inside && !r.offered
    case RunningSlot(_) => r.state == Running && r.link == Null
    case InFlight(to, from) => to != from && TicketOk(r)
    case FreeList(c) => r.refs == 0 && c == j.owner && !r.offered
    case RemoteList(c) => r.refs == 0 && c == j.owner && !r.offered
    case Hand(c, p) =>
      match p
      case Arriving => r.state == Ready && r.link != Inside && !r.offered
      case Future => r.state == Idle && r.link == Self && !r.offered
      case Selected => r.state == Ready && r.link == Null
      case Finished => r.state == Completed && r.link == Null
      case Deciding(from) => c != from && TicketOk(r)
      case Accepted => r.state == Ready && r.link == Inside && r.offered
      case Putting => r.state == Ready && r.link == Inside && !r.offered
  }

  /** A pending request is about a future job nobody else knows, or about an offered one. */
  predicate TicketOk(r: Job) {
    if r.offered then r.link != Self && r.state != Idle else r.state == Idle && r.link == Self
  }

  /** Places of core `c` a job may occupy while a request about it is open. */
  predicate OfferedAt(b: Place, c: nat) {
    b == ReadyQueue(c) || b == ReplicaQueue(c) || b == RunningSlot(c) || b == Hand(c, Selected)
        || b == Hand(c, Finished)
  }

  predicate FiledAt(b: Place, c: nat) {
    b == ReadyQueue(c) || b == ReplicaQueue(c) || b == DiscardList(c)
  }

  /** A job may be at `b` and have its ticket at `t` at the same time. */
  predicate Together(r: Job, b: Place, t: Place) {
    match t
    case InFlight(_, from) => r.offered && OfferedAt(b, from)
    case Hand(c, Deciding(from)) => r.offered && OfferedAt(b, from)
    case Hand(c, Accepted) => FiledAt(b, c)
    case Hand(c, Putting) => FiledAt(b, c)
    case _ => false
  }

  predicate Compatible(r: Job, a: Place, b: Place) {
    Together(r, a, b) || Together(r, b, a)
  }

  ghost predicate Paired(l: Lists, r: Job, j: Slot) {
    && (forall h :: In(l, h)[j] <= 1)
    && (forall h :: j in In(l, h) ==> PlaceOk(r, h, j))
    && (forall a, b :: j in In(l, a) && j in In(l, b) && a != b ==> Compatible(r, a, b))
  }

  ghost predicate Anchored(l: Lists, r: Job, j: Slot) {
    && (r.offered ==> exists h :: j in In(l, h) && Ticket(h))
    && (r.link == Inside && r.refs > 0 ==> exists h :: j in In(l, h) && Listed(h))
    && (r.refs == 0 ==> j in In(l, FreeList(j.owner)) || j in In(l, RemoteList(j.owner)))
  }

  ghost predicate SlotOk(l: Lists, r: Job, j: Slot) {
    r.refs == |Holders(l, j)| && (r.refs > 0 ==> r.pool == j.owner) && Paired(l, r, j) && Anchored(l, r, j)
  }

  ghost predicate Inv(s: State) {
    && (forall j :: j in s.jobs ==> j.owner < s.cores && SlotOk(s.lists, s.jobs[j], j))
    && (forall h, j :: j in In(s.lists, h) ==> j in s.jobs)
  }

  // ---- frames -------------------------------------------------------------------------------

  ghost predicate SameFor(l: Lists, l': Lists, k: Slot) {
    forall h :: In(l', h)[k] == In(l, h)[k]
  }

  lemma HoldersIn(l: Lists, j: Slot, h: Place)
    ensures h in Holders(l, j) <==> j in In(l, h) && !OnFreeList(h)
  {
  }

  lemma SameHolders(l: Lists, l': Lists, k: Slot)
    requires SameFor(l, l', k)
    ensures Holders(l', k) == Holders(l, k)
  {
    forall h ensures h in Holders(l', k) <==> h in Holders(l, k) {
      HoldersIn(l, k, h);
      HoldersIn(l', k, h);
    }
  }

  /** A job that an action leaves alone stays in order. */
  lemma FrameSlot(l: Lists, l': Lists, r: Job, k: Slot)
    requires SameFor(l, l', k) && SlotOk(l, r, k)
    ensures SlotOk(l', r, k)
  {
    hide PlaceOk, Compatible, Ticket, Listed, Holders, In;
    SameHolders(l, l', k);
    forall h ensures k in In(l', h) <==> k in In(l, h) {
    }
  }

  lemma TakenLists(l: Lists, j: Slot, a: Place)
    requires In(l, a)[j] == 1
    ensures var l' := Taken(l, j, a);
            && (forall k :: k != j ==> SameFor(l, l', k))
            && In(l', a)[j] == 0
            && (forall h :: h != a ==> In(l', h)[j] == In(l, h)[j])
  {
  }

  lemma AddedLists(l: Lists, j: Slot, b: Place)
    requires In(l, b)[j] == 0
    ensures var l' := Added(l, j, b);
            && (forall k :: k != j ==> SameFor(l, l', k))
            && In(l', b)[j] == 1
            && (forall h :: h != b ==> In(l', h)[j] == In(l, h)[j])
  {
  }

  lemma TakenElsewhere(l: Lists, j: Slot, a: Place, h: Place)
    requires h != a
    ensures In(Taken(l, j, a), h) == In(l, h)
  {
  }

  lemma AddedAt(l: Lists, j: Slot, b: Place, h: Place)
    ensures In(Added(l, j, b), h) == if h == b then In(l, h) + multiset{j} else In(l, h)
  {
  }

  lemma MovedLists(l: Lists, j: Slot, a: Place, b: Place)
    requires a != b && In(l, a)[j] == 1 && In(l, b)[j] == 0
    ensures var l' := Added(Taken(l, j, a), j, b);
            && (forall k :: k != j ==> SameFor(l, l', k))
            && In(l', a)[j] == 0 && In(l', b)[j] == 1
            && (forall h :: h != a && h != b ==> In(l', h)[j] == In(l, h)[j])
  {
    hide Added, Taken, In;
    var mid, l' := Taken(l, j, a), Added(Taken(l, j, a), j, b);
    TakenLists(l, j, a);
    AddedLists(mid, j, b);
    forall k | k != j ensures SameFor(l, l', k) {
      assert SameFor(l, mid, k) && SameFor(mid, l', k);
    }
  }

  /** How the set of holders changes when membership changes at one place `a` (left) and one place
      `b` (entered). */
  lemma HoldersChange(l: Lists, l': Lists, j: Slot, left: set<Place>, entered: set<Place>)
    requires forall h :: j in In(l', h) <==> h in entered || (j in In(l, h) && h !in left)
    ensures Holders(l', j) == Holders(l, j) - left + (set h | h in entered && !OnFreeList(h))
  {
    forall h ensures h in Holders(l', j) <==> h in Holders(l, j) - left + (set h | h in entered && !OnFreeList(h)) {
      HoldersIn(l, j, h);
      HoldersIn(l', j, h);
    }
  }

  /** Of two places holding one job, exactly one is a ticket. */
  lemma OneTicket(r: Job, a: Place, b: Place)
    requires Compatible(r, a, b)
    ensures Ticket(a) != Ticket(b)
  {
  }

  /** The places of `j` other than `a` agree with the record `r'` and with `j` being at `b`. */
  ghost predicate Fits(l: Lists, j: Slot, a: Place, r': Job, b: Place) {
    && PlaceOk(r', b, j)
    && (forall k :: j in In(l, k) && k != a ==> PlaceOk(r', k, j) && Compatible(r', k, b))
    && (r'.offered ==> Ticket(b) || exists h :: h != a && j in In(l, h) && Ticket(h))
    && (r'.link == Inside ==> Listed(b) || exists h :: h != a && j in In(l, h) && Listed(h))
  }

  lemma HeldOnce(l: Lists, r: Job, j: Slot, a: Place)
    requires Paired(l, r, j) && j in In(l, a)
    ensures In(l, a)[j] == 1 && PlaceOk(r, a, j)
  {
    hide PlaceOk, Compatible, In;
  }

  lemma HeldTwice(l: Lists, r: Job, j: Slot, a: Place, b: Place)
    requires Paired(l, r, j) && j in In(l, a) && j in In(l, b) && a != b
    ensures Compatible(r, a, b)
  {
    hide PlaceOk, Compatible, In;
  }

  /** A job held at `a` is held at one other place at most. */
  lemma OneOther(l: Lists, j: Slot, r: Job, a: Place, h: Place, k: Place)
    requires Paired(l, r, j) && j in In(l, a) && j in In(l, h) && j in In(l, k)
    ensures h == a || k == a || h == k
  {
    hide *;
    if h != a && k != a && h != k {
      HeldTwice(l, r, j, a, h);
      HeldTwice(l, r, j, a, k);
      HeldTwice(l, r, j, h, k);
      OneTicket(r, a, h);
      OneTicket(r, a, k);
      OneTicket(r, h, k);
    }
  }

  lemma Symmetric(r: Job, a: Place, b: Place)
    ensures Compatible(r, a, b) <==> Compatible(r, b, a)
  {
  }

  lemma FitsPair(l: Lists, l': Lists, j: Slot, r: Job, r': Job, a: Place, b: Place, h: Place, k: Place)
    requires Paired(l, r, j) && j in In(l, a) && Fits(l, j, a, r', b)
    requires In(l', a)[j] == 0 && In(l', b)[j] == 1 && (forall h :: h != a && h != b ==> In(l', h)[j] == In(l, h)[j])
    requires j in In(l', h) && j in In(l', k) && h != k
    ensures Compatible(r', h, k)
  {
    hide PlaceOk, Compatible, Ticket, Listed, In, Paired;
    Symmetric(r', h, k);
    if h != b && k != b {
      OneOther(l, j, r, a, h, k);
    }
  }

  lemma MovePaired(l: Lists, l': Lists, j: Slot, r: Job, r': Job, a: Place, b: Place)
    requires Paired(l, r, j) && j in In(l, a) && Fits(l, j, a, r', b)
    requires In(l', a)[j] == 0 && In(l', b)[j] == 1 && (forall h :: h != a && h != b ==> In(l', h)[j] == In(l, h)[j])
    ensures Paired(l', r', j)
  {
    hide PlaceOk, Compatible, Ticket, Listed, In;
    forall h, k | j in In(l', h) && j in In(l', k) && h != k ensures Compatible(r', h, k) {
      FitsPair(l, l', j, r, r', a, b, h, k);
    }
  }

  lemma MoveCount(l: Lists, l': Lists, j: Slot, a: Place, b: Place)
    requires a != b && j in In(l, a) && j !in In(l, b) && !OnFreeList(b)
    requires In(l', a)[j] == 0 && In(l', b)[j] == 1 && (forall h :: h != a && h != b ==> In(l', h)[j] == In(l, h)[j])
    ensures |Holders(l', j)| == |Holders(l, j)| + if OnFreeList(a) then 1 else 0
    ensures |Holders(l', j)| > 0
  {
    hide Holders, In;
    HoldersChange(l, l', j, {a}, {b});
    HoldersIn(l, j, a);
    HoldersIn(l, j, b);
    HoldersIn(l', j, b);
    var rest := Holders(l, j) - {a};
    assert (set h | h in {b} && !OnFreeList(h)) == {b};
    assert Holders(l', j) == rest + {b};
    assert Holders(l, j) == if OnFreeList(a) then rest else rest + {a};
  }

  lemma MoveAnchored(l: Lists, l': Lists, j: Slot, r: Job, r': Job, a: Place, b: Place)
    requires Anchored(l, r, j) && j in In(l, a) && Fits(l, j, a, r', b) && r'.refs > 0
    requires In(l', a)[j] == 0 && In(l', b)[j] == 1 && (forall h :: h != a && h != b ==> In(l', h)[j] == In(l, h)[j])
    ensures Anchored(l', r', j)
  {
    hide PlaceOk, Compatible, Ticket, Listed, In;
    assert j in In(l', b);
  }

  /** Moving a job keeps it in order. */
  lemma MoveSlot(l: Lists, j: Slot, r: Job, r': Job, a: Place, b: Place)
    requires SlotOk(l, r, j) && j in In(l, a) && j !in In(l, b)
    requires Fits(l, j, a, r', b) && !OnFreeList(b) && r'.pool == j.owner
    requires r'.refs == r.refs + if OnFreeList(a) then 1 else 0
    ensures SlotOk(Added(Taken(l, j, a), j, b), r', j)
  {
    hide PlaceOk, Compatible, Paired, Anchored, Fits, Holders, Added, Taken, In;
    var l' := Added(Taken(l, j, a), j, b);
    HeldOnce(l, r, j, a);
    MovedLists(l, j, a, b);
    MovePaired(l, l', j, r, r', a, b);
    MoveCount(l, l', j, a, b);
    MoveAnchored(l, l', j, r, r', a, b);
  }

  /** What remains of `j` once it leaves `a` agrees with the record `r'`. */
  ghost predicate Leaves(l: Lists, j: Slot, r: Job, a: Place, r': Job) {
    && (r.refs == 1 ==> !r'.offered)
    && (forall k :: j in In(l, k) && k != a ==>
          PlaceOk(r', k, j) && (r'.offered ==> Ticket(k)) && (r'.link == Inside ==> Listed(k)))
  }

  /** With a single reference, `a` is the only holder; with more there is exactly one other. */
  lemma OthersOf(l: Lists, j: Slot, r: Job, a: Place)
    requires SlotOk(l, r, j) && j in In(l, a) && !OnFreeList(a)
    ensures r.refs == 1 <==> forall k :: j in In(l, k) ==> k == a
    ensures r.refs > 0
    ensures forall k :: j in In(l, k) ==> !OnFreeList(k)
  {
    hide PlaceOk, Compatible, Anchored, In, Holders, Paired;
    HoldersIn(l, j, a);
    var rest := Holders(l, j) - {a};
    assert Holders(l, j) == rest + {a};
    forall k | j in In(l, k) ensures !OnFreeList(k) && (k != a ==> k in rest) {
      FreeAlone(l, r, j, a, k);
      HoldersIn(l, j, k);
    }
    if rest != {} {
      var k :| k in rest;
      HoldersIn(l, j, k);
    }
  }

  lemma FreeAlone(l: Lists, r: Job, j: Slot, a: Place, k: Place)
    requires Paired(l, r, j) && j in In(l, a) && j in In(l, k) && !OnFreeList(a)
    ensures !OnFreeList(k)
  {
    hide In, Paired;
    if OnFreeList(k) {
      HeldTwice(l, r, j, a, k);
    }
  }

  lemma LeaveCount(l: Lists, l': Lists, j: Slot, a: Place)
    requires j in In(l, a) && !OnFreeList(a)
    requires In(l', a)[j] == 0 && (forall h :: h != a && !OnFreeList(h) ==> In(l', h)[j] == In(l, h)[j])
    ensures |Holders(l', j)| == |Holders(l, j)| - 1
  {
    hide Holders, In;
    HoldersIn(l, j, a);
    forall h ensures h in Holders(l', j) <==> h in Holders(l, j) - {a} {
      HoldersIn(l, j, h);
      HoldersIn(l', j, h);
    }
    assert Holders(l', j) == Holders(l, j) - {a};
  }

  /** Dropping one of two references keeps the job in order. */
  lemma DropOne(l: Lists, j: Slot, r: Job, r': Job, a: Place)
    requires SlotOk(l, r, j) && j in In(l, a) && !OnFreeList(a) && Leaves(l, j, r, a, r')
    requires r.refs > 1 && r'.refs == r.refs && r'.pool == r.pool
    ensures SlotOk(Taken(l, j, a), r'.(refs := r'.refs - 1), j)
  {
    hide PlaceOk, Compatible, In, Holders, Taken, Listed, Ticket;
    var l', r'' := Taken(l, j, a), r'.(refs := r'.refs - 1);
    HeldOnce(l, r, j, a);
    TakenLists(l, j, a);
    LeaveCount(l, l', j, a);
    OthersOf(l, j, r, a);
    forall h, k | j in In(l', h) && j in In(l', k) ensures h == k {
      OneOther(l, j, r, a, h, k);
    }
    forall k | j in In(l, k) && k != a ensures PlaceOk(r'', k, j) {
      RefsDoNotMatter(r', r'', k, j);
    }
  }

  lemma RefsDoNotMatter(r: Job, r': Job, k: Place, j: Slot)
    requires !OnFreeList(k) && PlaceOk(r, k, j) && r' == r.(refs := r'.refs)
    ensures PlaceOk(r', k, j)
  {
  }

  /** Dropping the last reference puts the slot on exactly one free list of its owner. */
  lemma DropLast(l: Lists, j: Slot, r: Job, r': Job, a: Place, me: nat)
    requires SlotOk(l, r, j) && j in In(l, a) && !OnFreeList(a) && Leaves(l, j, r, a, r')
    requires r.refs == 1 && r'.refs == r.refs && r'.pool == r.pool
    ensures SlotOk(Added(Taken(l, j, a), j, if r.pool == me then FreeList(r.pool) else RemoteList(r.pool)),
                   r'.(refs := 0), j)
  {
    hide In, Holders, Taken, Added, Listed, Ticket, Compatible;
    var b := if r.pool == me then FreeList(r.pool) else RemoteList(r.pool);
    var mid, l', r'' := Taken(l, j, a), Added(Taken(l, j, a), j, b), r'.(refs := 0);
    HeldOnce(l, r, j, a);
    TakenLists(l, j, a);
    OthersOf(l, j, r, a);
    assert In(l, b)[j] == 0;
    AddedLists(mid, j, b);
    LeaveCount(l, l', j, a);
    forall k ensures j in In(l', k) <==> k == b {
      assert k != a && k != b ==> In(l', k)[j] == In(l, k)[j];
    }
  }

  lemma ReleaseSlot(s: State, j: Slot, r': Job, a: Place, me: nat)
    requires j in s.jobs && SlotOk(s.lists, s.jobs[j], j) && j in In(s.lists, a) && !OnFreeList(a)
    requires Leaves(s.lists, j, s.jobs[j], a, r') && r'.refs == s.jobs[j].refs && r'.pool == s.jobs[j].pool
    ensures var s' := Release(s, j, r', a, me); SlotOk(s'.lists, s'.jobs[j], j)
  {
    hide SlotOk, In, Holders, Taken, Added, Leaves;
    OthersOf(s.lists, j, s.jobs[j], a);
    if s.jobs[j].refs == 1 {
      DropLast(s.lists, j, s.jobs[j], r', a, me);
    } else {
      DropOne(s.lists, j, s.jobs[j], r', a);
    }
  }

  /** A job held at exactly one body place and one ticket is in order. */
  lemma PairSlot(l: Lists, j: Slot, r: Job, b: Place, t: Place)
    requires forall h :: In(l, h)[j] == if h == b || h == t then 1 else 0
    requires b != t && !OnFreeList(b) && !OnFreeList(t) && PlaceOk(r, b, j) && PlaceOk(r, t, j) && Together(r, b, t)
    requires r.refs == 2 && r.pool == j.owner && Ticket(t) && (r.link == Inside ==> Listed(b))
    ensures SlotOk(l, r, j)
  {
    hide PlaceOk, In, Holders, Listed, Ticket, Together;
    forall h ensures h in Holders(l, j) <==> h in {b, t} {
      HoldersIn(l, j, h);
    }
    assert Holders(l, j) == {b, t};
    assert j in In(l, b) && j in In(l, t);
  }

  // ---- every action keeps the invariant -----------------------------------------------------

  ghost predicate OnlyTouches(s: State, s': State, j: Slot) {
    && s'.cores == s.cores && s'.jobs.Keys == s.jobs.Keys && j in s.jobs
    && (forall k :: k in s.jobs && k != j ==> s'.jobs[k] == s.jobs[k])
    && (forall k :: k != j ==> SameFor(s.lists, s'.lists, k))
  }

  /** An action on one job keeps the invariant if it keeps that job in order. */
  lemma OthersKept(s: State, s': State, j: Slot)
    requires Inv(s) && OnlyTouches(s, s', j) && SlotOk(s'.lists, s'.jobs[j], j)
    ensures Inv(s')
  {
    hide SlotOk, In;
    forall k | k in s'.jobs ensures k.owner < s'.cores && SlotOk(s'.lists, s'.jobs[k], k) {
      if k != j {
        FrameSlot(s.lists, s'.lists, s.jobs[k], k);
      }
    }
    forall h, k | k in In(s'.lists, h) ensures k in s'.jobs {
      if k != j {
        assert SameFor(s.lists, s'.lists, k);
        assert In(s'.lists, h)[k] == In(s.lists, h)[k];
      }
    }
  }

  lemma MoveTouches(s: State, j: Slot, r': Job, a: Place, b: Place)
    requires j in s.jobs && In(s.lists, a)[j] == 1 && In(s.lists, b)[j] == 0 && a != b
    ensures OnlyTouches(s, Move(s, j, r', a, b), j)
  {
    hide In, Added, Taken, SameFor;
    MovedLists(s.lists, j, a, b);
  }

  lemma MoveKeeps(s: State, j: Slot, r': Job, a: Place, b: Place)
    requires Inv(s) && j in s.jobs && j in In(s.lists, a) && j !in In(s.lists, b)
    requires Fits(s.lists, j, a, r', b) && !OnFreeList(b) && r'.pool == j.owner
    requires r'.refs == s.jobs[j].refs + if OnFreeList(a) then 1 else 0
    ensures Inv(Move(s, j, r', a, b))
  {
    hide SlotOk, In, Added, Taken, Fits, OnlyTouches;
    assert SlotOk(s.lists, s.jobs[j], j);
    SlotPaired(s.lists, s.jobs[j], j);
    HeldOnce(s.lists, s.jobs[j], j, a);
    MoveTouches(s, j, r', a, b);
    MoveSlot(s.lists, j, s.jobs[j], r', a, b);
    OthersKept(s, Move(s, j, r', a, b), j);
  }

  lemma SlotPaired(l: Lists, r: Job, j: Slot)
    requires SlotOk(l, r, j)
    ensures Paired(l, r, j) && Anchored(l, r, j) && (r.refs > 0 ==> r.pool == j.owner)
  {
  }

  lemma ReleaseTouches(s: State, j: Slot, r': Job, a: Place, me: nat)
    requires j in s.jobs && In(s.lists, a)[j] == 1 && !OnFreeList(a)
    requires r'.pool == j.owner && (r'.refs == 1 ==> forall h :: OnFreeList(h) ==> In(s.lists, h)[j] == 0)
    ensures OnlyTouches(s, Release(s, j, r', a, me), j)
  {
    hide In, Added, Taken, SameFor;
    TakenLists(s.lists, j, a);
    if r'.refs == 1 {
      MovedLists(s.lists, j, a, if r'.pool == me then FreeList(r'.pool) else RemoteList(r'.pool));
    }
  }

  lemma ReleaseKeeps(s: State, j: Slot, r': Job, a: Place, me: nat)
    requires Inv(s) && j in s.jobs && j in In(s.lists, a) && !OnFreeList(a)
    requires Leaves(s.lists, j, s.jobs[j], a, r') && r'.refs == s.jobs[j].refs && r'.pool == s.jobs[j].pool
    ensures Inv(Release(s, j, r', a, me))
  {
    hide SlotOk, In, Added, Taken, Leaves, OnlyTouches, Release;
    assert SlotOk(s.lists, s.jobs[j], j);
    SlotPaired(s.lists, s.jobs[j], j);
    HeldOnce(s.lists, s.jobs[j], j, a);
    OthersOf(s.lists, j, s.jobs[j], a);
    ReleaseTouches(s, j, r', a, me);
    ReleaseSlot(s, j, r', a, me);
    OthersKept(s, Release(s, j, r', a, me), j);
  }

  // ---- what is known about a job at a place -------------------------------------------------

  /** The facts an action may use about job `j`, found at `a`, and any other place `k` of it. */
  lemma At(s: State, j: Slot, a: Place)
    requires Inv(s) && j in In(s.lists, a)
    ensures j in s.jobs && PlaceOk(s.jobs[j], a, j)
    ensures !OnFreeList(a) ==> s.jobs[j].refs > 0 && s.jobs[j].pool == j.owner
    ensures forall k :: j in In(s.lists, k) && k != a ==>
              PlaceOk(s.jobs[j], k, j) && Compatible(s.jobs[j], a, k) && Ticket(a) != Ticket(k)
    ensures s.jobs[j].offered ==> exists h :: j in In(s.lists, h) && Ticket(h)
  {
    hide SlotOk, In, PlaceOk, Compatible, Ticket, Paired;
    var l, r := s.lists, s.jobs[j];
    assert SlotOk(l, r, j);
    SlotPaired(l, r, j);
    HeldOnce(l, r, j, a);
    if !OnFreeList(a) {
      OthersOf(l, j, r, a);
    }
    forall k | j in In(l, k) && k != a ensures PlaceOk(r, k, j) && Compatible(r, a, k) && Ticket(a) != Ticket(k) {
      HeldOnce(l, r, j, k);
      HeldTwice(l, r, j, a, k);
      OneTicket(r, a, k);
    }
  }

  /** Moves a job that has no other place than `a`. */
  lemma MoveAlone(s: State, j: Slot, r': Job, a: Place, b: Place)
    requires Inv(s) && j in In(s.lists, a) && a != b && !OnFreeList(b) && !OnFreeList(a)
    requires j in s.jobs && r'.refs == s.jobs[j].refs && r'.pool == s.jobs[j].pool
    requires forall k :: j in In(s.lists, k) ==> k == a
    requires PlaceOk(r', b, j) && (r'.offered ==> Ticket(b)) && (r'.link == Inside ==> Listed(b))
    ensures Inv(Move(s, j, r', a, b))
  {
    hide SlotOk, In, PlaceOk, Compatible, Ticket, Listed, Move;
    At(s, j, a);
    MoveKeeps(s, j, r', a, b);
  }

  /** A job being prepared by a core, waiting for its arrival or set aside has no other place. */
  predicate Solitary(a: Place) {
    a.PendingQueue? || a.SharedDiscard? || (a.Hand? && (a.phase.Arriving? || a.phase.Future?))
  }

  lemma Alone(s: State, j: Slot, a: Place)
    requires Inv(s) && j in In(s.lists, a) && Solitary(a)
    ensures forall k :: j in In(s.lists, k) ==> k == a
    ensures j in s.jobs && PlaceOk(s.jobs[j], a, j) && s.jobs[j].refs > 0 && s.jobs[j].pool == j.owner
  {
    hide In;
    At(s, j, a);
  }

  lemma ReleaseAlone(s: State, j: Slot, r': Job, a: Place, me: nat)
    requires Inv(s) && j in In(s.lists, a) && Solitary(a)
    requires j in s.jobs && r'.refs == s.jobs[j].refs && r'.pool == s.jobs[j].pool && r'.offered == s.jobs[j].offered
    ensures Inv(Release(s, j, r', a, me))
  {
    hide In, Release;
    Alone(s, j, a);
    ReleaseKeeps(s, j, r', a, me);
  }

  lemma KeepsCreate(s: State, c: nat, j: Slot, r': Job, phase: Phase)
    requires Inv(s) && AtRest(s, c) && j in In(s.lists, FreeList(c))
    requires PlaceOk(r', Hand(c, phase), j) && (phase == Arriving || phase == Future)
    requires r'.refs == 1 && r'.pool == c && r'.link == Self
    ensures Inv(Move(s, j, r', FreeList(c), Hand(c, phase)))
  {
    hide In, Move;
    At(s, j, FreeList(c));
    assert In(s.lists, Hand(c, phase)) == multiset{};
    MoveKeeps(s, j, r', FreeList(c), Hand(c, phase));
  }

  lemma KeepsRefill(s: State, c: nat)
    requires Inv(s) && Enabled(s, Refill(c))
    ensures Inv(Step(s, Refill(c)))
  {
    hide In, Holders, PlaceOk, Compatible;
    var s' := Step(s, Refill(c));
    forall k | k in s'.jobs ensures SlotOk(s'.lists, s'.jobs[k], k) {
      RefillSlot(s.lists, s'.lists, s.jobs[k], k, c);
    }
    forall h, k | k in In(s'.lists, h) ensures k in s'.jobs {
      RefillIn(s.lists, c, h);
    }
  }

  lemma RefillIn(l: Lists, c: nat, h: Place)
    ensures In(Refilled(l, c), h) ==
            if h == FreeList(c) then In(l, RemoteList(c)) else if h == RemoteList(c) then multiset{} else In(l, h)
  {
  }

  lemma RefillSlot(l: Lists, l': Lists, r: Job, k: Slot, c: nat)
    requires SlotOk(l, r, k) && In(l, FreeList(c)) == multiset{}
    requires l' == Refilled(l, c)
    ensures SlotOk(l', r, k)
  {
    hide In, Holders, Compatible;
    forall h
      ensures In(l', h) ==
              if h == FreeList(c) then In(l, RemoteList(c)) else if h == RemoteList(c) then multiset{} else In(l, h)
    {
      RefillIn(l, c, h);
    }
    forall h ensures h in Holders(l', k) <==> h in Holders(l, k) {
      HoldersIn(l, k, h);
      HoldersIn(l', k, h);
    }
    assert Holders(l', k) == Holders(l, k);
    RefillPairs(l, l', r, k, c);
    if k in In(l, RemoteList(c)) {
      assert k in In(l', FreeList(c));
    }
  }

  lemma RefillPairs(l: Lists, l': Lists, r: Job, k: Slot, c: nat)
    requires Paired(l, r, k) && In(l, FreeList(c)) == multiset{}
    requires forall h :: In(l', h) ==
               if h == FreeList(c) then In(l, RemoteList(c)) else if h == RemoteList(c) then multiset{} else In(l, h)
    ensures Paired(l', r, k)
  {
    hide In, Compatible;
    forall h | k in In(l', h) ensures PlaceOk(r, h, k) && In(l', h)[k] == 1 {
      HeldOnce(l, r, k, if h == FreeList(c) then RemoteList(c) else h);
    }
    forall a, b | k in In(l', a) && k in In(l', b) && a != b ensures Compatible(r, a, b) {
      var a0 := if a == FreeList(c) then RemoteList(c) else a;
      var b0 := if b == FreeList(c) then RemoteList(c) else b;
      HeldTwice(l, r, k, a0, b0);
      FreeNeverPaired(r, a0, b0);
    }
  }

  lemma FreeNeverPaired(r: Job, a: Place, b: Place)
    requires Compatible(r, a, b)
    ensures !OnFreeList(a) && !OnFreeList(b)
  {
  }

  lemma KeepsEnqueue(s: State, c: nat, j: Slot)
    requires Inv(s) && j in In(s.lists, Hand(c, Arriving)) && j in s.jobs
    ensures Inv(Move(s, j, s.jobs[j].(link := Inside), Hand(c, Arriving), HomeFor(s, c, s.jobs[j])))
  {
    hide In, Move, Inv, LevelOf;
    Alone(s, j, Hand(c, Arriving));
    MoveAlone(s, j, s.jobs[j].(link := Inside), Hand(c, Arriving), HomeFor(s, c, s.jobs[j]));
  }

  lemma KeepsTakePending(s: State, c: nat, j: Slot)
    requires Inv(s) && j in In(s.lists, PendingQueue(c)) && j in s.jobs
    ensures Inv(Move(s, j, s.jobs[j].(link := Null, state := Ready), PendingQueue(c), Hand(c, Arriving)))
  {
    hide In, Move, Inv;
    Alone(s, j, PendingQueue(c));
    MoveAlone(s, j, s.jobs[j].(link := Null, state := Ready), PendingQueue(c), Hand(c, Arriving));
  }

  lemma KeepsSendFuture(s: State, c: nat, j: Slot, to: nat)
    requires Inv(s) && j in In(s.lists, Hand(c, Future)) && j in s.jobs && to != c
    ensures Inv(Move(s, j, s.jobs[j], Hand(c, Future), InFlight(to, c)))
  {
    hide In, Move, Inv;
    Alone(s, j, Hand(c, Future));
    MoveAlone(s, j, s.jobs[j], Hand(c, Future), InFlight(to, c));
  }

  lemma KeepsReclaimShared(s: State, c: nat, j: Slot)
    requires Inv(s) && j in In(s.lists, SharedDiscard) && j in s.jobs
    ensures Inv(Move(s, j, s.jobs[j], SharedDiscard, QueueFor(c, s.jobs[j])))
  {
    hide In, Move, Inv;
    Alone(s, j, SharedDiscard);
    MoveAlone(s, j, s.jobs[j], SharedDiscard, QueueFor(c, s.jobs[j]));
  }

  /** What a job of core `c` that may be offered can have beside it: a request under way to some
      other core. (A job in a queue of `c` also may be one that `c` is just accepting, unless `c` is
      between two actions.) */
  lemma Partner(s: State, c: nat, j: Slot, a: Place, k: Place)
    requires Inv(s) && OfferedAt(a, c) && (FiledAt(a, c) ==> AtRest(s, c))
    requires j in In(s.lists, a) && j in In(s.lists, k) && k != a
    ensures j in s.jobs && s.jobs[j].offered && TicketOk(s.jobs[j]) && Ticket(k)
    ensures k.InFlight? ==> k.from == c && k.to != c
    ensures !k.InFlight? ==> k.Hand? && k.phase == Deciding(c) && k.core != c
  {
    hide In, Inv;
    At(s, j, a);
  }

  lemma RequestStays(r: Job, r': Job, k: Place, b: Place, c: nat, j: Slot)
    requires r.offered && r'.offered && OfferedAt(b, c) && PlaceOk(r', b, j) && PlaceOk(r, k, j)
    requires if k.InFlight? then k.from == c else k.Hand? && k.phase == Deciding(c)
    ensures PlaceOk(r', k, j) && Compatible(r', k, b) && k != b
  {
  }

  lemma OfferedLink(r: Job, b: Place, c: nat, j: Slot)
    requires OfferedAt(b, c) && PlaceOk(r, b, j)
    ensures r.link == Inside ==> Listed(b)
    ensures !OnFreeList(b) && !Ticket(b)
  {
  }

  lemma OfferedHasTicket(s: State, j: Slot, a: Place, c: nat)
    requires Inv(s) && j in In(s.lists, a) && OfferedAt(a, c) && j in s.jobs
    ensures s.jobs[j].offered ==> exists h :: h != a && j in In(s.lists, h) && Ticket(h)
    ensures s.jobs[j].pool == j.owner && !OnFreeList(a)
  {
    hide In, Inv, PlaceOk, Compatible;
    At(s, j, a);
  }

  /** A move between two places where core `c` may keep an offered job. */
  lemma KeepsOffered(s: State, c: nat, j: Slot, r': Job, a: Place, b: Place)
    requires Inv(s) && OfferedAt(a, c) && OfferedAt(b, c) && (FiledAt(a, c) ==> AtRest(s, c))
    requires j in In(s.lists, a) && a != b && j in s.jobs
    requires PlaceOk(r', b, j) && r'.refs == s.jobs[j].refs && r'.pool == s.jobs[j].pool
    requires r'.offered == s.jobs[j].offered
    ensures Inv(Move(s, j, r', a, b))
  {
    hide In, Inv, Move, PlaceOk, Compatible, Ticket;
    At(s, j, a);
    forall k | j in In(s.lists, k) && k != a ensures k != b && Ticket(k) && PlaceOk(r', k, j) && Compatible(r', k, b) {
      Partner(s, c, j, a, k);
      RequestStays(s.jobs[j], r', k, b, c, j);
    }
    OfferedLink(r', b, c, j);
    OfferedHasTicket(s, j, a, c);
    MoveKeeps(s, j, r', a, b);
  }

  /** A job of core `c` that may be offered is removed. */
  lemma KeepsRemoved(s: State, c: nat, j: Slot, r': Job, a: Place)
    requires Inv(s) && OfferedAt(a, c) && (FiledAt(a, c) ==> AtRest(s, c))
    requires j in In(s.lists, a) && j in s.jobs && r'.link == Null && r'.state != Idle
    requires r'.refs == s.jobs[j].refs && r'.pool == s.jobs[j].pool && r'.offered == s.jobs[j].offered
    ensures Inv(Release(s, j, r', a, c))
  {
    hide In, Inv, Release;
    At(s, j, a);
    forall k | j in In(s.lists, k) && k != a ensures PlaceOk(r', k, j) && Ticket(k) {
      Partner(s, c, j, a, k);
    }
    if s.jobs[j].refs == 1 {
      InvSlot(s, j);
      OthersOf(s.lists, j, s.jobs[j], a);
    }
    ReleaseKeeps(s, j, r', a, c);
  }

  lemma InvSlot(s: State, j: Slot)
    requires Inv(s) && j in s.jobs
    ensures SlotOk(s.lists, s.jobs[j], j) && j.owner < s.cores
  {
    hide SlotOk;
  }

  /** A job that is not offered and sits in a queue of a core at rest has no other place. */
  lemma QueuedAlone(s: State, c: nat, j: Slot, a: Place)
    requires Inv(s) && AtRest(s, c) && FiledAt(a, c) && j in In(s.lists, a)
    requires j in s.jobs && (a == DiscardList(c) || !s.jobs[j].offered)
    ensures forall k :: j in In(s.lists, k) ==> k == a
    ensures !s.jobs[j].offered && PlaceOk(s.jobs[j], a, j)
    ensures s.jobs[j].refs > 0 && s.jobs[j].pool == j.owner
  {
    hide In, Inv;
    At(s, j, a);
  }

  lemma KeepsFiled(s: State, c: nat, j: Slot, a: Place, b: Place)
    requires Inv(s) && AtRest(s, c) && FiledAt(a, c) && j in In(s.lists, a) && j in s.jobs
    requires a == DiscardList(c) || !s.jobs[j].offered
    requires b == QueueFor(c, s.jobs[j]) || b == DiscardList(c) || b == SharedDiscard
    requires a != b
    ensures Inv(Move(s, j, s.jobs[j], a, b))
  {
    hide In, Inv, Move;
    QueuedAlone(s, c, j, a);
    MoveAlone(s, j, s.jobs[j], a, b);
  }

  lemma KeepsOffer(s: State, c: nat, j: Slot, to: nat)
    requires Inv(s) && AtRest(s, c) && j in s.jobs && Queued(s, c, j) && !s.jobs[j].offered && to != c
    ensures var r := s.jobs[j].(offered := true, refs := s.jobs[j].refs + 1);
            Inv(s.(jobs := s.jobs[j := r], lists := Added(s.lists, j, InFlight(to, c))))
  {
    hide In, Inv, SlotOk, Added, Holders, Compatible;
    var a, t, r := QueueFor(c, s.jobs[j]), InFlight(to, c), s.jobs[j];
    var r', l' := r.(offered := true, refs := r.refs + 1), Added(s.lists, j, t);
    QueuedAlone(s, c, j, a);
    InvSlot(s, j);
    SlotPaired(s.lists, r, j);
    OthersOf(s.lists, j, r, a);
    HeldOnce(s.lists, r, j, a);
    assert j !in In(s.lists, t);
    AddedLists(s.lists, j, t);
    PairSlot(l', j, r', a, t);
    OthersKept(s, s.(jobs := s.jobs[j := r'], lists := l'), j);
  }

  lemma LinkedSomewhere(s: State, j: Slot, a: Place)
    requires Inv(s) && j in s.jobs && j in In(s.lists, a) && !OnFreeList(a)
    requires s.jobs[j].link == Inside && !Listed(a)
    ensures exists h :: h != a && j in In(s.lists, h) && Listed(h)
  {
    hide In, Inv, SlotOk, PlaceOk, Compatible, Listed;
    At(s, j, a);
    InvSlot(s, j);
    SlotPaired(s.lists, s.jobs[j], j);
  }

  lemma KeepsReceive(s: State, c: nat, j: Slot, from: nat)
    requires Inv(s) && AtRest(s, c) && j in s.jobs && j in In(s.lists, InFlight(c, from))
    ensures Inv(Move(s, j, s.jobs[j], InFlight(c, from), Hand(c, Deciding(from))))
  {
    hide In, Inv, Move;
    At(s, j, InFlight(c, from));
    if s.jobs[j].link == Inside {
      LinkedSomewhere(s, j, InFlight(c, from));
    }
    MoveKeeps(s, j, s.jobs[j], InFlight(c, from), Hand(c, Deciding(from)));
  }

  lemma KeepsClearOffer(s: State, c: nat, j: Slot)
    requires Inv(s) && j in s.jobs && j in In(s.lists, Hand(c, Accepted))
    ensures Inv(Move(s, j, s.jobs[j].(offered := false), Hand(c, Accepted), Hand(c, Putting)))
  {
    hide In, Inv, Move;
    At(s, j, Hand(c, Accepted));
    LinkedSomewhere(s, j, Hand(c, Accepted));
    MoveKeeps(s, j, s.jobs[j].(offered := false), Hand(c, Accepted), Hand(c, Putting));
  }

  lemma KeepsPutTicket(s: State, c: nat, j: Slot)
    requires Inv(s) && j in s.jobs && j in In(s.lists, Hand(c, Putting))
    ensures Inv(Release(s, j, s.jobs[j], Hand(c, Putting), c))
  {
    hide In, Inv, Release;
    At(s, j, Hand(c, Putting));
    ReleaseKeeps(s, j, s.jobs[j], Hand(c, Putting), c);
  }

  lemma KeepsReject(s: State, c: nat, j: Slot, from: nat)
    requires Inv(s) && j in s.jobs && j in In(s.lists, Hand(c, Deciding(from)))
    ensures Inv(Release(s, j, s.jobs[j].(offered := false), Hand(c, Deciding(from)), c))
  {
    hide In, Inv, Release;
    At(s, j, Hand(c, Deciding(from)));
    ReleaseKeeps(s, j, s.jobs[j].(offered := false), Hand(c, Deciding(from)), c);
  }

  lemma KeepsAcceptFuture(s: State, c: nat, j: Slot, from: nat)
    requires Inv(s) && j in s.jobs && j in In(s.lists, Hand(c, Deciding(from))) && s.jobs[j].state == Idle
    ensures Inv(Move(s, j, s.jobs[j].(link := Inside, offered := false), Hand(c, Deciding(from)), PendingQueue(c)))
  {
    hide In, Inv, Move;
    At(s, j, Hand(c, Deciding(from)));
    MoveAlone(s, j, s.jobs[j].(link := Inside, offered := false), Hand(c, Deciding(from)), PendingQueue(c));
  }

  // ---- accepting a queued job ---------------------------------------------------------------

  /** The list a migration unlinks a job from is a queue of the offering core, whose lock the
      destination holds. */
  lemma UnlinkUnderLock(s: State, c: nat, j: Slot, from: nat)
    requires Inv(s) && j in s.jobs && j in In(s.lists, Hand(c, Deciding(from)))
    requires s.jobs[j].link != Null && s.jobs[j].state == Ready
    ensures c != from && s.jobs[j].offered && s.jobs[j].link == Inside && s.jobs[j].refs == 2
    ensures s.jobs[j].pool == j.owner
    ensures forall k :: j in In(s.lists, k) <==> k == QueueFor(from, s.jobs[j]) || k == Hand(c, Deciding(from))
  {
    hide In, Inv, Holders;
    var a, r, l := Hand(c, Deciding(from)), s.jobs[j], s.lists;
    At(s, j, a);
    LinkedSomewhere(s, j, a);
    var b :| b != a && j in In(l, b) && Listed(b);
    assert b == QueueFor(from, r);
    InvSlot(s, j);
    forall k | j in In(l, k) ensures k == a || k == b {
      OneOther(l, j, r, a, b, k);
    }
    TwoHolders(l, j, a, b);
  }

  lemma TwoHolders(l: Lists, j: Slot, a: Place, b: Place)
    requires a != b && !OnFreeList(a) && !OnFreeList(b)
    requires forall k :: j in In(l, k) <==> k == a || k == b
    ensures |Holders(l, j)| == 2
  {
    hide In, Holders;
    forall h ensures h in Holders(l, j) <==> h in {a, b} {
      HoldersIn(l, j, h);
    }
    assert Holders(l, j) == {a, b};
  }

  lemma UnlinkedIn(l: Lists, j: Slot, h: Place)
    ensures In(Unlinked(l, j), h) == if Listed(h) then In(l, h) - multiset{j} else In(l, h)
  {
  }

  lemma UnlinkedLists(l: Lists, j: Slot, a: Place, b: Place)
    requires (forall k :: j in In(l, k) <==> k == a || k == b) && In(l, a)[j] == 1 && In(l, b)[j] == 1
    requires Listed(b) && !Listed(a)
    ensures forall k :: k != j ==> SameFor(l, Unlinked(l, j), k)
    ensures forall h :: In(Unlinked(l, j), h)[j] == if h == a then 1 else 0
  {
    hide In, Unlinked, Listed;
    forall h ensures In(Unlinked(l, j), h) == if Listed(h) then In(l, h) - multiset{j} else In(l, h) {
      UnlinkedIn(l, j, h);
    }
  }

  lemma AcceptCounts(l: Lists, j: Slot, a: Place, b: Place, home: Place, t: Place)
    requires (forall k :: j in In(l, k) <==> k == a || k == b) && In(l, a)[j] == 1 && In(l, b)[j] == 1
    requires a != b && Listed(b) && !Listed(a) && Listed(home) && !Listed(t) && t != a
    ensures In(Unlinked(l, j), home)[j] == 0
    ensures In(Added(Unlinked(l, j), j, home), a)[j] == 1 && In(Added(Unlinked(l, j), j, home), t)[j] == 0
    ensures forall h :: In(Added(Taken(Added(Unlinked(l, j), j, home), j, a), j, t), h)[j] ==
              if h == home || h == t then 1 else 0
  {
    hide In, Added, Taken, Unlinked, SameFor;
    UnlinkedLists(l, j, a, b);
    AddedLists(Unlinked(l, j), j, home);
    MovedLists(Added(Unlinked(l, j), j, home), j, a, t);
  }

  lemma AcceptLists(l: Lists, j: Slot, a: Place, b: Place, home: Place, t: Place)
    requires (forall k :: j in In(l, k) <==> k == a || k == b) && In(l, a)[j] == 1 && In(l, b)[j] == 1
    requires a != b && Listed(b) && !Listed(a) && Listed(home) && !Listed(t) && t != a
    ensures var l' := Added(Taken(Added(Unlinked(l, j), j, home), j, a), j, t);
            && (forall k :: k != j ==> SameFor(l, l', k))
            && (forall h :: In(l', h)[j] == if h == home || h == t then 1 else 0)
  {
    hide In, Added, Taken, Unlinked, SameFor, Listed;
    AcceptCounts(l, j, a, b, home, t);
    var l' := Added(Taken(Added(Unlinked(l, j), j, home), j, a), j, t);
    forall k | k != j ensures SameFor(l, l', k) {
      AcceptOther(l, j, a, b, home, t, k);
    }
  }

  lemma AcceptOther(l: Lists, j: Slot, a: Place, b: Place, home: Place, t: Place, k: Slot)
    requires (forall h :: j in In(l, h) <==> h == a || h == b) && In(l, a)[j] == 1 && In(l, b)[j] == 1
    requires a != b && Listed(b) && !Listed(a) && Listed(home) && !Listed(t) && t != a && k != j
    ensures SameFor(l, Added(Taken(Added(Unlinked(l, j), j, home), j, a), j, t), k)
  {
    hide In, Added, Taken, Unlinked, SameFor, Listed;
    AcceptCounts(l, j, a, b, home, t);
    UnlinkedLists(l, j, a, b);
    AddedLists(Unlinked(l, j), j, home);
    MovedLists(Added(Unlinked(l, j), j, home), j, a, t);
    SameChain(l, Unlinked(l, j), Added(Unlinked(l, j), j, home),
        Added(Taken(Added(Unlinked(l, j), j, home), j, a), j, t), k);
  }

  lemma SameChain(l: Lists, l1: Lists, l2: Lists, l': Lists, k: Slot)
    requires SameFor(l, l1, k) && SameFor(l1, l2, k) && SameFor(l2, l', k)
    ensures SameFor(l, l', k)
  {
    hide In;
    forall h ensures In(l', h)[k] == In(l, h)[k] {
      assert In(l1, h)[k] == In(l, h)[k] && In(l2, h)[k] == In(l1, h)[k];
    }
  }

  lemma KeepsAccept(s: State, c: nat, j: Slot, from: nat)
    requires Inv(s) && j in s.jobs && j in In(s.lists, Hand(c, Deciding(from)))
    requires s.jobs[j].link != Null && s.jobs[j].state == Ready
    ensures var r := s.jobs[j];
            Inv(Move(s.(lists := Added(Unlinked(s.lists, j), j, HomeFor(s, c, r))), j, r.(link := Inside),
                     Hand(c, Deciding(from)), Hand(c, Accepted)))
  {
    hide In, Inv, Added, Taken, Unlinked, SlotOk, LevelOf;
    var r, l, a := s.jobs[j], s.lists, Hand(c, Deciding(from));
    var home := HomeFor(s, c, r);
    UnlinkUnderLock(s, c, j, from);
    InvSlot(s, j);
    SlotPaired(l, r, j);
    HeldOnce(l, r, j, a);
    HeldOnce(l, r, j, QueueFor(from, r));
    AcceptLists(l, j, a, QueueFor(from, r), home, Hand(c, Accepted));
    var s' := Move(s.(lists := Added(Unlinked(l, j), j, home)), j, r.(link := Inside), a, Hand(c, Accepted));
    PairSlot(s'.lists, j, r, home, Hand(c, Accepted));
    OthersKept(s, s', j);
  }

  // ---- runs ---------------------------------------------------------------------------------

  lemma KeepsDecide(s: State, c: nat, j: Slot, from: nat, admissible: bool)
    requires Inv(s) && j in s.jobs && j in In(s.lists, Hand(c, Deciding(from)))
    ensures Inv(Decided(s, c, j, from, admissible))
  {
    hide In, Inv, Added, Taken, Unlinked, LevelOf, Move, Release;
    var r := s.jobs[j];
    if !admissible {
      KeepsReject(s, c, j, from);
    } else if r.state == Idle && s.now < r.arrival {
      KeepsAcceptFuture(s, c, j, from);
    } else if r.link != Null && r.state == Ready {
      KeepsAccept(s, c, j, from);
    } else {
      KeepsReject(s, c, j, from);
    }
  }

  /** When a core reclaims its discard list, no job on it is still on offer, so the branch that
      would lose the job's reference is never taken. */
  lemma ReclaimNeverDrops(s: State, c: nat, j: Slot)
    requires Inv(s) && AtRest(s, c) && j in In(s.lists, DiscardList(c))
    ensures j in s.jobs && !s.jobs[j].offered
  {
    hide In, Inv;
    At(s, j, DiscardList(c));
    QueuedAlone(s, c, j, DiscardList(c));
  }

  lemma KeepsReclaim(s: State, c: nat, j: Slot, admissible: bool)
    requires Inv(s) && AtRest(s, c) && j in s.jobs && j in In(s.lists, DiscardList(c))
    ensures Inv(Reclaimed(s, c, j, admissible))
  {
    hide In, Inv, Added, Taken, Move;
    ReclaimNeverDrops(s, c, j);
    KeepsFiled(s, c, j, DiscardList(c), if admissible then QueueFor(c, s.jobs[j]) else SharedDiscard);
  }

  lemma QueueLook(s: State, j: Slot, a: Place, c: nat)
    requires Inv(s) && j in In(s.lists, a) && OfferedAt(a, c)
    ensures j in s.jobs && PlaceOk(s.jobs[j], a, j)
  {
    hide In, Inv;
    At(s, j, a);
  }

  /** The events of a job that runs or is about to. */
  lemma StepRunning(s: State, e: Event)
    requires Inv(s) && Enabled(s, e)
    requires e.Select? || e.Dispatch? || e.Requeue? || e.Complete? || e.PutFinished? || e.RemoveQueued?
             || e.RemoveRunning?
    ensures Inv(Step(s, e))
  {
    hide In, Inv, AtRest, Move, Release;
    var c, j := e.c, e.j;
    var r, q := s.jobs[j], QueueFor(c, s.jobs[j]);
    match e
    case Select(_, _) =>
      QueueLook(s, j, q, c);
      KeepsOffered(s, c, j, r.(link := Null), q, Hand(c, Selected));
    case Dispatch(_, _) =>
      QueueLook(s, j, Hand(c, Selected), c);
      KeepsOffered(s, c, j, r.(state := Running), Hand(c, Selected), RunningSlot(c));
    case Requeue(_, _) =>
      QueueLook(s, j, RunningSlot(c), c);
      KeepsOffered(s, c, j, r.(state := Ready, link := Inside), RunningSlot(c), q);
    case Complete(_, _) =>
      QueueLook(s, j, RunningSlot(c), c);
      KeepsOffered(s, c, j, r.(state := Completed), RunningSlot(c), Hand(c, Finished));
    case PutFinished(_, _) =>
      QueueLook(s, j, Hand(c, Finished), c);
      KeepsRemoved(s, c, j, r, Hand(c, Finished));
    case RemoveQueued(_, _) => KeepsRemoved(s, c, j, r.(state := Removed, link := Null), q);
    case RemoveRunning(_, _) =>
      QueueLook(s, j, RunningSlot(c), c);
      KeepsRemoved(s, c, j, r.(state := Removed), RunningSlot(c));
  }

  lemma StepRequest(s: State, e: Event)
    requires Inv(s) && Enabled(s, e)
    requires e.Offer? || e.Receive? || e.Decide? || e.ClearOffer? || e.PutTicket? || e.SendFuture? || e.DropFuture?
    ensures Inv(Step(s, e))
  {
    hide In, Inv, AtRest, Move, Release, Added, Decided, PlaceOk;
    match e
    case Offer(c, j, to) => KeepsOffer(s, c, j, to);
    case Receive(c, j, from) => KeepsReceive(s, c, j, from);
    case Decide(c, j, from, admissible) => KeepsDecide(s, c, j, from, admissible);
    case ClearOffer(c, j) => KeepsClearOffer(s, c, j);
    case PutTicket(c, j) => KeepsPutTicket(s, c, j);
    case SendFuture(c, j, to) => KeepsSendFuture(s, c, j, to);
    case DropFuture(c, j) => ReleaseAlone(s, j, s.jobs[j], Hand(c, Future), c);
  }

  lemma LevelsAndTime(s: State, level: map<nat, nat>, now: nat)
    requires Inv(s)
    ensures Inv(s.(level := level)) && Inv(s.(now := now))
  {
    hide In, SlotOk;
  }

  lemma StepFiling(s: State, e: Event)
    requires Inv(s) && Enabled(s, e)
    requires e.Refill? || e.Create? || e.Enqueue? || e.TakePending? || e.DropPending? || e.SetLevel? || e.Tick?
    ensures Inv(Step(s, e))
  {
    hide In, Inv, AtRest, Move, Release, Added;
    match e
    case Refill(c) => KeepsRefill(s, c);
    case Create(c, j, crit, replica, future, arrival) =>
      KeepsCreate(s, c, j, Job(1, false, if future then Idle else Ready, Self, c, crit, replica, arrival),
                  if future then Future else Arriving);
    case Enqueue(c, j) => KeepsEnqueue(s, c, j);
    case TakePending(c, j) => KeepsTakePending(s, c, j);
    case DropPending(c, j) => ReleaseAlone(s, j, s.jobs[j].(link := Null), PendingQueue(c), c);
    case SetLevel(c, newLevel) => LevelsAndTime(s, s.level[c := newLevel], s.now);
    case Tick => LevelsAndTime(s, s.level, s.now + 1);
  }

  lemma StepDiscard(s: State, e: Event)
    requires Inv(s) && Enabled(s, e)
    requires e.Filter? || e.Reclaim? || e.ReclaimShared? || e.TimerRelease?
    ensures Inv(Step(s, e))
  {
    hide In, Inv, AtRest, Move, Release, Reclaimed, PlaceOk, LevelOf;
    match e
    case Filter(c, j) => KeepsFiled(s, c, j, QueueFor(c, s.jobs[j]), DiscardList(c));
    case Reclaim(c, j, admissible) => KeepsReclaim(s, c, j, admissible);
    case ReclaimShared(c, j) => KeepsReclaimShared(s, c, j);
    case TimerRelease(j) => ReleaseAlone(s, j, s.jobs[j].(link := Null), SharedDiscard, s.cores);
  }

  lemma StepKeeps(s: State, e: Event)
    requires Inv(s) && Enabled(s, e)
    ensures Inv(Step(s, e))
  {
    hide *;
    match e
    case Offer(_, _, _) => StepRequest(s, e);
    case Receive(_, _, _) => StepRequest(s, e);
    case Decide(_, _, _, _) => StepRequest(s, e);
    case ClearOffer(_, _) => StepRequest(s, e);
    case PutTicket(_, _) => StepRequest(s, e);
    case SendFuture(_, _, _) => StepRequest(s, e);
    case DropFuture(_, _) => StepRequest(s, e);
    case Filter(_, _) => StepDiscard(s, e);
    case Reclaim(_, _, _) => StepDiscard(s, e);
    case ReclaimShared(_, _) => StepDiscard(s, e);
    case TimerRelease(_) => StepDiscard(s, e);
    case Refill(_) => StepFiling(s, e);
    case Create(_, _, _, _, _, _) => StepFiling(s, e);
    case Enqueue(_, _) => StepFiling(s, e);
    case TakePending(_, _) => StepFiling(s, e);
    case DropPending(_, _) => StepFiling(s, e);
    case SetLevel(_, _) => StepFiling(s, e);
    case Tick => StepFiling(s, e);
    case _ => StepRunning(s, e);
  }

  ghost predicate Legal(s: State, es: seq<Event>)
    decreases |es|
  {
    es == [] || (Enabled(s, es[0]) && Legal(Step(s, es[0]), es[1..]))
  }

  ghost function Run(s: State, es: seq<Event>): State
    requires Legal(s, es)
    decreases |es|
  {
    if es == [] then s else Run(Step(s, es[0]), es[1..])
  }

  lemma {:induction false} RunKeeps(s: State, es: seq<Event>)
    requires Inv(s) && Legal(s, es)
    ensures Inv(Run(s, es))
    decreases |es|
  {
    hide Inv, Step, Enabled;
    if es != [] {
      StepKeeps(s, es[0]);
      RunKeeps(Step(s, es[0]), es[1..]);
    }
  }

  /** At start every slot is on its owner's free list and nothing else holds anything. */
  ghost predicate Initial(s: State) {
    && (forall j :: j in s.jobs ==> j.owner < s.cores && s.jobs[j].refs == 0 && !s.jobs[j].offered)
    && (forall h, j :: In(s.lists, h)[j] == if j in s.jobs && h == FreeList(j.owner) then 1 else 0)
  }

  lemma InitialInv(s: State)
    requires Initial(s)
    ensures Inv(s)
  {
    hide In, Holders;
    forall j | j in s.jobs ensures SlotOk(s.lists, s.jobs[j], j) {
      forall h ensures h !in Holders(s.lists, j) {
        HoldersIn(s.lists, j, h);
      }
      assert Holders(s.lists, j) == {};
      assert j in In(s.lists, FreeList(j.owner));
    }
  }

  /** In every run, each slot's reference count is the number of places that hold the job; a slot is
      live or on exactly one free list, and then on one of its owner's; nothing holds a freed job. */
  lemma CountsMatchHolders(s0: State, es: seq<Event>, j: Slot)
    requires Initial(s0) && Legal(s0, es) && j in Run(s0, es).jobs
    ensures var s := Run(s0, es);
            && s.jobs[j].refs == |Holders(s.lists, j)|
            && (forall h :: In(s.lists, h)[j] <= 1)
            && (s.jobs[j].refs > 0 ==> forall h :: OnFreeList(h) ==> j !in In(s.lists, h))
            && (s.jobs[j].refs == 0 ==>
                  && (forall h :: j in In(s.lists, h) ==> OnFreeList(h) && h.core == j.owner)
                  && (j in In(s.lists, FreeList(j.owner)) <==> j !in In(s.lists, RemoteList(j.owner))))
  {
    hide In, Holders, Inv, Step, Initial, Compatible;
    InitialInv(s0);
    RunKeeps(s0, es);
    var s := Run(s0, es);
    InvSlot(s, j);
    if s.jobs[j].refs == 0 {
      forall h | j in In(s.lists, h) ensures OnFreeList(h) && h.core == j.owner {
        HoldersIn(s.lists, j, h);
      }
      if j in In(s.lists, FreeList(j.owner)) {
        OneFreeList(s.lists, s.jobs[j], j);
      }
    }
  }

  lemma OneFreeList(l: Lists, r: Job, j: Slot)
    requires Paired(l, r, j) && j in In(l, FreeList(j.owner))
    ensures j !in In(l, RemoteList(j.owner))
  {
    hide In, Paired;
    if j in In(l, RemoteList(j.owner)) {
      HeldTwice(l, r, j, FreeList(j.owner), RemoteList(j.owner));
      FreeNeverPaired(r, FreeList(j.owner), RemoteList(j.owner));
    }
  }

  /** In every run, a job on any list or in any request has at least one reference. */
  lemma NoUseAfterRelease(s0: State, es: seq<Event>, j: Slot, h: Place)
    requires Initial(s0) && Legal(s0, es) && j in In(Run(s0, es).lists, h) && !OnFreeList(h)
    ensures j in Run(s0, es).jobs && Run(s0, es).jobs[j].refs > 0
  {
    hide In, Inv, Step, Initial;
    InitialInv(s0);
    RunKeeps(s0, es);
    At(Run(s0, es), j, h);
  }

  /** In every run, whenever a core may reclaim an entry of its discard list, that entry is not on
      offer. */
  lemma DiscardsNotOffered(s0: State, es: seq<Event>, c: nat, j: Slot, admissible: bool)
    requires Initial(s0) && Legal(s0, es) && Enabled(Run(s0, es), Reclaim(c, j, admissible))
    ensures !Run(s0, es).jobs[j].offered
  {
    hide In, Inv, Step, Initial;
    InitialInv(s0);
    RunKeeps(s0, es);
    ReclaimNeverDrops(Run(s0, es), c, j);
  }

  /** In every run, whenever a destination is about to unlink a job, the job is in a queue of the
      offering core, whose lock the destination holds, and nowhere else but in the request. */
  lemma MigrationsUnlinkUnderLock(s0: State, es: seq<Event>, c: nat, j: Slot, from: nat)
    requires Initial(s0) && Legal(s0, es) && Enabled(Run(s0, es), Decide(c, j, from, true))
    requires var r := Run(s0, es).jobs[j]; r.link != Null && r.state == Ready
    ensures var s := Run(s0, es);
            && c != from && s.jobs[j].offered && s.jobs[j].refs == 2
            && forall k :: j in In(s.lists, k) <==> k == QueueFor(from, s.jobs[j]) || k == Hand(c, Deciding(from))
  {
    hide In, Inv, Step, Initial;
    InitialInv(s0);
    RunKeeps(s0, es);
    UnlinkUnderLock(Run(s0, es), c, j, from);
  }

  // ---- the pool object ----------------------------------------------------------------------

  /** A core's pool: the free list its own thread uses, and the list other threads return slots to. */
  class CorePool {
    const owner: nat
    var freeList: seq<Slot>
    var remoteFreeList: seq<Slot>

    constructor (owner: nat, size: nat)
      ensures this.owner == owner && remoteFreeList == [] && |freeList| == size
      ensures forall k :: 0 <= k < size ==> freeList[k] == Slot(owner, size - 1 - k)
    {
      this.owner, remoteFreeList, freeList := owner, [], [];
      new;
      var j := 0;
      while j < size
        invariant j <= size && |freeList| == j && remoteFreeList == []
        invariant forall k :: 0 <= k < j ==> freeList[k] == Slot(owner, j - 1 - k)
      {
        freeList := [Slot(owner, j)] + freeList;
        j := j + 1;
      }
    }

    /** The two lists hold what the state `l` says is on them. */
    ghost predicate Represents(l: Lists)
      reads this
    {
      multiset(freeList) == In(l, FreeList(owner)) && multiset(remoteFreeList) == In(l, RemoteList(owner))
    }

    method Refill(ghost l: Lists)
      requires Represents(l) && freeList == []
      modifies this
      ensures Represents(Refilled(l, owner)) && freeList == old(remoteFreeList)
    {
      hide In, Refilled;
      freeList := remoteFreeList;
      remoteFreeList := [];
      RefillIn(l, owner, FreeList(owner));
      RefillIn(l, owner, RemoteList(owner));
    }

    method Pop(ghost l: Lists) returns (j: Slot)
      requires Represents(l) && freeList != []
      modifies this
      ensures j == old(freeList)[0] && j in In(l, FreeList(owner)) && Represents(Taken(l, j, FreeList(owner)))
    {
      j := freeList[0];
      assert freeList == [j] + freeList[1..];
      freeList := freeList[1..];
    }

    /** The part of job creation that finds a slot: the own list first, then everything returned by
        others at once; `l'` is the state of the lists after that refill, if there was one. There is
        no slot only when both lists are empty. */
    method Take(ghost l: Lists) returns (slot: Option<Slot>, ghost l': Lists)
      requires Represents(l)
      modifies this
      ensures l' == if In(l, FreeList(owner)) == multiset{} then Refilled(l, owner) else l
      ensures slot.None? <==> In(l, FreeList(owner)) + In(l, RemoteList(owner)) == multiset{}
      ensures slot.None? ==> Represents(l')
      ensures slot.Some? ==>
                slot.value in In(l', FreeList(owner)) && Represents(Taken(l', slot.value, FreeList(owner)))
    {
      hide In, Refilled, Taken;
      l' := l;
      if freeList == [] {
        Refill(l);
        l' := Refilled(l, owner);
      } else {
        assert freeList[0] in multiset(freeList);
      }
      if freeList == [] {
        return None, l';
      }
      assert freeList[0] in multiset(freeList);
      var j := Pop(l');
      return Some(j), l';
    }

    /** The last reference to a job returns its slot: the pool's own thread to its own list, any other to
        the list they share. That is what dropping the last reference does to the lists. */
    method Return(ghost s: State, j: Slot, ghost r: Job, ghost a: Place, me: nat)
      requires Represents(s.lists) && r.refs == 1 && r.pool == owner && !OnFreeList(a)
      modifies this
      ensures Represents(Release(s, j, r, a, me).lists)
      ensures freeList == (if owner == me then [j] else []) + old(freeList)
      ensures remoteFreeList == (if owner == me then [] else [j]) + old(remoteFreeList)
    {
      Returned(s, j, r, a, me);
      hide In, Release, OnFreeList;
      assert multiset([j] + freeList) == multiset{j} + multiset(freeList);
      assert multiset([j] + remoteFreeList) == multiset{j} + multiset(remoteFreeList);
      if owner == me {
        freeList := [j] + freeList;
      } else {
        remoteFreeList := [j] + remoteFreeList;
      }
    }
  }

  lemma Returned(s: State, j: Slot, r: Job, a: Place, me: nat)
    requires r.refs == 1 && !OnFreeList(a)
    ensures var l := Release(s, j, r, a, me).lists;
            && In(l, FreeList(r.pool))
               == (if r.pool == me then multiset{j} else multiset{}) + In(s.lists, FreeList(r.pool))
            && In(l, RemoteList(r.pool))
               == (if r.pool == me then multiset{} else multiset{j}) + In(s.lists, RemoteList(r.pool))
  {
    hide In, Added, Taken;
    var l, home := Taken(s.lists, j, a), if r.pool == me then FreeList(r.pool) else RemoteList(r.pool);
    TakenElsewhere(s.lists, j, a, FreeList(r.pool));
    TakenElsewhere(s.lists, j, a, RemoteList(r.pool));
    AddedAt(l, j, home, FreeList(r.pool));
    AddedAt(l, j, home, RemoteList(r.pool));
  }
}
