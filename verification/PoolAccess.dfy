/** Which thread may touch which free list: a core's own free list has no lock, so only the core's own
    thread may change it; other threads return slots to the list that has one. */
module PoolAccess {
  import opened Common
  import opened JobLife

  /** The core whose thread performs the event; none for the timer. */
  function Actor(e: Event): Option<nat> {
    match e
    case TimerRelease(_) => None
    case Tick => None
    case _ => Some(e.c)
  }

  /** What a step may do to the two free lists of core `c`, depending on whether it is its own thread that
      takes it. */
  ghost predicate Respects(l: Lists, l': Lists, c: nat, own: bool, refill: bool) {
    if own then
      refill || In(l', RemoteList(c)) == In(l, RemoteList(c))
    else
      In(l', FreeList(c)) == In(l, FreeList(c)) && In(l, RemoteList(c)) <= In(l', RemoteList(c))
  }

  lemma MoveElsewhere(s: State, j: Slot, r': Job, a: Place, b: Place, h: Place)
    requires h != a && h != b
    ensures In(Move(s, j, r', a, b).lists, h) == In(s.lists, h)
  {
  }

  lemma MoveRespects(s: State, j: Slot, r': Job, a: Place, b: Place, c: nat, own: bool, refill: bool)
    requires !OnFreeList(b) && (OnFreeList(a) ==> a.FreeList? && (own || a.core != c))
    ensures Respects(s.lists, Move(s, j, r', a, b).lists, c, own, refill)
  {
    hide Move, In;
    if a != FreeList(c) {
      MoveElsewhere(s, j, r', a, b, FreeList(c));
    }
    MoveElsewhere(s, j, r', a, b, RemoteList(c));
  }

  lemma ReleaseRespects(s: State, j: Slot, r': Job, a: Place, me: nat, c: nat, own: bool, refill: bool)
    requires !OnFreeList(a) && (own <==> me == c)
    ensures Respects(s.lists, Release(s, j, r', a, me).lists, c, own, refill)
  {
    hide In, Taken, Added;
    var l := Taken(s.lists, j, a);
    TakenElsewhere(s.lists, j, a, FreeList(c));
    TakenElsewhere(s.lists, j, a, RemoteList(c));
    var home := if r'.pool == me then FreeList(r'.pool) else RemoteList(r'.pool);
    AddedAt(l, j, home, FreeList(c));
    AddedAt(l, j, home, RemoteList(c));
  }

  lemma AcceptRespects(s: State, c: nat, j: Slot, from: nat, d: nat, own: bool, refill: bool)
    requires j in s.jobs && (own <==> c == d)
    ensures Respects(s.lists, Decided(s, c, j, from, true).lists, d, own, refill)
    ensures Respects(s.lists, Decided(s, c, j, from, false).lists, d, own, refill)
  {
    hide Move, Release, In, Respects;
    var r, here := s.jobs[j], Hand(c, Deciding(from));
    ReleaseRespects(s, j, r.(offered := false), here, c, d, own, refill);
    MoveRespects(s, j, r.(link := Inside, offered := false), here, PendingQueue(c), d, own, refill);
    var mid := s.(lists := Added(Unlinked(s.lists, j), j, HomeFor(s, c, r)));
    MoveRespects(mid, j, r.(link := Inside), here, Hand(c, Accepted), d, own, refill);
    FiledRespects(s.lists, j, HomeFor(s, c, r), d);
    RespectsChain(s.lists, mid.lists, Move(mid, j, r.(link := Inside), here, Hand(c, Accepted)).lists, d, own, refill);
  }

  lemma FiledRespects(l: Lists, j: Slot, home: Place, c: nat)
    requires !OnFreeList(home)
    ensures var l' := Added(Unlinked(l, j), j, home);
            In(l', FreeList(c)) == In(l, FreeList(c)) && In(l', RemoteList(c)) == In(l, RemoteList(c))
  {
    hide Unlinked;
    UnlinkedIn(l, j, FreeList(c));
    UnlinkedIn(l, j, RemoteList(c));
  }

  lemma RespectsChain(l: Lists, m: Lists, l': Lists, c: nat, own: bool, refill: bool)
    requires In(m, FreeList(c)) == In(l, FreeList(c)) && In(m, RemoteList(c)) == In(l, RemoteList(c))
    requires Respects(m, l', c, own, refill)
    ensures Respects(l, l', c, own, refill)
  {
  }

  lemma RefillRespects(l: Lists, c: nat, d: nat)
    ensures Respects(l, Refilled(l, c), d, c == d, true)
  {
    hide In, Refilled;
    RefillIn(l, c, FreeList(d));
    RefillIn(l, c, RemoteList(d));
  }

  /** The timer acts for no core, so it never owns the slot it returns. */
  lemma TimerForeign(s: State, j: Slot)
    requires Inv(s) && j in In(s.lists, SharedDiscard)
    ensures j in s.jobs && s.jobs[j].pool == j.owner < s.cores
  {
    hide In, SlotOk;
    At(s, j, SharedDiscard);
  }

  lemma TimerRespects(s: State, j: Slot, c: nat)
    requires Inv(s) && j in In(s.lists, SharedDiscard)
    ensures j in s.jobs
    ensures Respects(s.lists, Release(s, j, s.jobs[j].(link := Null), SharedDiscard, s.cores).lists, c, false, false)
  {
    TimerForeign(s, j);
    hide Inv, In;
    ForeignRespects(s, j, s.jobs[j].(link := Null), SharedDiscard, s.cores, c);
  }

  lemma ForeignRespects(s: State, j: Slot, r': Job, a: Place, me: nat, c: nat)
    requires !OnFreeList(a) && r'.pool != me
    ensures Respects(s.lists, Release(s, j, r', a, me).lists, c, false, false)
  {
    hide In, Taken, Added;
    var l := Taken(s.lists, j, a);
    TakenElsewhere(s.lists, j, a, FreeList(c));
    TakenElsewhere(s.lists, j, a, RemoteList(c));
    var home := if r'.pool == me then FreeList(r'.pool) else RemoteList(r'.pool);
    AddedAt(l, j, home, FreeList(c));
    AddedAt(l, j, home, RemoteList(c));
  }

  /** No step of another thread changes a core's own free list, and other threads only add to the list that
      they share; the core itself takes from that one only to refill its own. */
  lemma StepRespects(s: State, e: Event, c: nat)
    requires Inv(s) && Enabled(s, e)
    ensures Respects(s.lists, Step(s, e).lists, c, Actor(e) == Some(c), e.Refill?)
  {
    hide Inv, In, Move, Release, Respects, Decided, Refilled, AtRest, Queued, QueueFor, HomeFor;
    var own := Actor(e) == Some(c);
    match e {
      case Refill(d) => RefillRespects(s.lists, d, c);
      case Create(d, j, crit, replica, future, arrival) =>
        MoveRespects(s, j, Job(1, false, if future then Idle else Ready, Self, d, crit, replica, arrival), FreeList(d),
                     Hand(d, if future then Future else Arriving), c, own, false);
      case Enqueue(d, j) =>
        Homes(s, d, s.jobs[j]);
        MoveRespects(s, j, s.jobs[j].(link := Inside), Hand(d, Arriving), HomeFor(s, d, s.jobs[j]), c, own, false);
      case TakePending(d, j) =>
        MoveRespects(s, j, s.jobs[j].(link := Null, state := Ready), PendingQueue(d), Hand(d, Arriving), c, own, false);
      case DropPending(d, j) =>
        ReleaseRespects(s, j, s.jobs[j].(link := Null), PendingQueue(d), d, c, own, false);
      case DropFuture(d, j) => ReleaseRespects(s, j, s.jobs[j], Hand(d, Future), d, c, own, false);
      case SendFuture(d, j, to) => MoveRespects(s, j, s.jobs[j], Hand(d, Future), InFlight(to, d), c, own, false);
      case Offer(d, j, to) => TicketRespects(s.lists, j, to, d, c, own);
      case Receive(d, j, from) =>
        MoveRespects(s, j, s.jobs[j], InFlight(d, from), Hand(d, Deciding(from)), c, own, false);
      case Decide(d, j, from, admissible) => AcceptRespects(s, d, j, from, c, own, false);
      case ClearOffer(d, j) =>
        MoveRespects(s, j, s.jobs[j].(offered := false), Hand(d, Accepted), Hand(d, Putting), c, own, false);
      case PutTicket(d, j) => ReleaseRespects(s, j, s.jobs[j], Hand(d, Putting), d, c, own, false);
      case PutFinished(d, j) => ReleaseRespects(s, j, s.jobs[j], Hand(d, Finished), d, c, own, false);
      case RemoveQueued(d, j) =>
        Homes(s, d, s.jobs[j]);
        ReleaseRespects(s, j, s.jobs[j].(state := Removed, link := Null), QueueFor(d, s.jobs[j]), d, c, own, false);
      case RemoveRunning(d, j) =>
        ReleaseRespects(s, j, s.jobs[j].(state := Removed), RunningSlot(d), d, c, own, false);
      case TimerRelease(j) => TimerRespects(s, j, c);
      case SetLevel(_, _) => NothingRespects(s.lists, c, own);
      case Tick => NothingRespects(s.lists, c, own);
      case _ => RunningRespects(s, e, c);
    }
  }

  /** The events that only move jobs between a core and its queues. */
  lemma RunningRespects(s: State, e: Event, c: nat)
    requires Enabled(s, e)
    requires e.Select? || e.Dispatch? || e.Requeue? || e.Complete? || e.Filter? || e.Reclaim? || e.ReclaimShared?
    ensures Respects(s.lists, Step(s, e).lists, c, Actor(e) == Some(c), false)
  {
    hide In, Move, Respects, AtRest, Queued, QueueFor;
    var own, d, r := Actor(e) == Some(c), e.c, s.jobs[e.j];
    Homes(s, d, r);
    match e {
      case Select(_, j) => MoveRespects(s, j, r.(link := Null), QueueFor(d, r), Hand(d, Selected), c, own, false);
      case Dispatch(_, j) => MoveRespects(s, j, r.(state := Running), Hand(d, Selected), RunningSlot(d), c, own, false);
      case Requeue(_, j) =>
        MoveRespects(s, j, r.(state := Ready, link := Inside), RunningSlot(d), QueueFor(d, r), c, own, false);
      case Complete(_, j) =>
        MoveRespects(s, j, r.(state := Completed), RunningSlot(d), Hand(d, Finished), c, own, false);
      case Filter(_, j) => MoveRespects(s, j, r, QueueFor(d, r), DiscardList(d), c, own, false);
      case ReclaimShared(_, j) => MoveRespects(s, j, r, SharedDiscard, QueueFor(d, r), c, own, false);
      case Reclaim(_, j, admissible) =>
        MoveRespects(s, j, r, DiscardList(d), QueueFor(d, r), c, own, false);
        MoveRespects(s, j, r, DiscardList(d), SharedDiscard, c, own, false);
        TakenRespects(s.lists, j, d, c, own);
    }
  }

  lemma Homes(s: State, c: nat, r: Job)
    ensures !OnFreeList(HomeFor(s, c, r)) && !OnFreeList(QueueFor(c, r))
  {
  }

  lemma TicketRespects(l: Lists, j: Slot, to: nat, from: nat, c: nat, own: bool)
    ensures Respects(l, Added(l, j, InFlight(to, from)), c, own, false)
  {
  }

  lemma TakenRespects(l: Lists, j: Slot, d: nat, c: nat, own: bool)
    ensures Respects(l, Taken(l, j, DiscardList(d)), c, own, false)
  {
  }

  lemma NothingRespects(l: Lists, c: nat, own: bool)
    ensures Respects(l, l, c, own, false)
  {
  }

  /** In every run, the next step changes a core's own free list only if that core's thread takes it; all
      others leave it alone and only add to the list shared with them. */
  lemma FreeListsUnshared(s0: State, es: seq<Event>, e: Event, c: nat)
    requires Initial(s0) && Legal(s0, es) && Enabled(Run(s0, es), e) && Actor(e) != Some(c)
    ensures var l, l' := Run(s0, es).lists, Step(Run(s0, es), e).lists;
            In(l', FreeList(c)) == In(l, FreeList(c)) && In(l, RemoteList(c)) <= In(l', RemoteList(c))
  {
    hide In, Inv, Step, Initial, Actor;
    InitialInv(s0);
    RunKeeps(s0, es);
    StepRespects(Run(s0, es), e, c);
  }

  /** In every run, the last reference to a job returns its slot to the owner's own list if the owner's thread
      drops it, and to the list shared with other threads if not. */
  lemma FreedWhere(s0: State, es: seq<Event>, e: Event, j: Slot)
    requires Initial(s0) && Legal(s0, es) && Enabled(Run(s0, es), e)
    requires j in Run(s0, es).jobs && Run(s0, es).jobs[j].refs > 0
    requires j in Step(Run(s0, es), e).jobs && Step(Run(s0, es), e).jobs[j].refs == 0
    ensures var l' := Step(Run(s0, es), e).lists;
            if Actor(e) == Some(j.owner) then j in In(l', FreeList(j.owner)) else j in In(l', RemoteList(j.owner))
  {
    hide In, Inv, Step, Initial, Actor, Enabled;
    InitialInv(s0);
    RunKeeps(s0, es);
    var s := Run(s0, es);
    var s' := Step(s, e);
    StepRespects(s, e, j.owner);
    StepKeeps(s, e);
    OnOwnersList(s', j);
    NotFreeYet(s, j);
    if e.Refill? {
      RefillFrees(s, e);
    }
  }

  lemma OnOwnersList(s: State, j: Slot)
    requires Inv(s) && j in s.jobs && s.jobs[j].refs == 0
    ensures j in In(s.lists, FreeList(j.owner)) || j in In(s.lists, RemoteList(j.owner))
  {
    hide In, Paired;
    InvSlot(s, j);
  }

  lemma NotFreeYet(s: State, j: Slot)
    requires Inv(s) && j in s.jobs && s.jobs[j].refs > 0
    ensures j !in In(s.lists, FreeList(j.owner)) && j !in In(s.lists, RemoteList(j.owner))
  {
    hide In, PlaceOk, Compatible, Holders;
    InvSlot(s, j);
    if j in In(s.lists, FreeList(j.owner)) {
      At(s, j, FreeList(j.owner));
      FreeLook(s.jobs[j], j);
    }
    if j in In(s.lists, RemoteList(j.owner)) {
      At(s, j, RemoteList(j.owner));
      FreeLook(s.jobs[j], j);
    }
  }

  lemma FreeLook(r: Job, j: Slot)
    ensures PlaceOk(r, FreeList(j.owner), j) || PlaceOk(r, RemoteList(j.owner), j) ==> r.refs == 0
  {
  }

  lemma RefillFrees(s: State, e: Event)
    requires Enabled(s, e) && e.Refill?
    ensures Step(s, e).jobs == s.jobs
  {
  }
}
