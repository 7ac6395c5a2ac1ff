/** Where the events of a job's life take it. */
module JobPlaces {
  import opened Common
  import opened JobLife

  /** Where core `c` files a ready job: below the level on the discard list, else in the queue of its kind. */
  function Filed(s: State, c: nat, r: Job): Place {
    if c in s.level && r.crit < s.level[c] then DiscardList(c)
    else if r.replica then ReplicaQueue(c) else ReadyQueue(c)
  }

  lemma ReleasedElsewhere(s: State, j: Slot, r': Job, a: Place, me: nat, h: Place)
    requires h != a && !OnFreeList(h)
    ensures In(Release(s, j, r', a, me).lists, h) == In(s.lists, h)
  {
  }

  lemma MovedTo(s: State, j: Slot, r': Job, a: Place, b: Place)
    ensures j in In(Move(s, j, r', a, b).lists, b)
  {
  }

  /** An arriving job is filed by its level and its kind. */
  lemma ArrivalFiled(s: State, c: nat, j: Slot)
    requires Inv(s) && Enabled(s, Enqueue(c, j))
    ensures j in In(Step(s, Enqueue(c, j)).lists, Filed(s, c, s.jobs[j]))
  {
    hide Inv, In, Move;
    MovedTo(s, j, s.jobs[j].(link := Inside), Hand(c, Arriving), HomeFor(s, c, s.jobs[j]));
  }

  /** A request that is turned down leaves the job wherever it is. */
  lemma TurnedDown(s: State, c: nat, j: Slot, from: nat, h: Place)
    requires Inv(s) && Enabled(s, Decide(c, j, from, false)) && h != Hand(c, Deciding(from)) && !OnFreeList(h)
    ensures In(Step(s, Decide(c, j, from, false)).lists, h) == In(s.lists, h)
  {
    hide Inv, In, Release;
    ReleasedElsewhere(s, j, s.jobs[j].(offered := false), Hand(c, Deciding(from)), c, h);
  }

  /** An admissible future job waits for its arrival on the destination, which is the only place it has. */
  lemma FutureTakenOver(s: State, c: nat, j: Slot, from: nat, h: Place)
    requires Inv(s) && Enabled(s, Decide(c, j, from, true)) && s.jobs[j].state == Idle && s.now < s.jobs[j].arrival
    ensures j in In(Step(s, Decide(c, j, from, true)).lists, h) <==> h == PendingQueue(c)
  {
    hide Inv, In, Added, Taken, Holders;
    var a := Hand(c, Deciding(from));
    At(s, j, a);
    forall k | j in In(s.lists, k) ensures k == a {
    }
    InvSlot(s, j);
    SlotPaired(s.lists, s.jobs[j], j);
    HeldOnce(s.lists, s.jobs[j], j, a);
    assert In(s.lists, PendingQueue(c))[j] == 0;
    MovedLists(s.lists, j, a, PendingQueue(c));
  }

  /** An admissible job that still waits is on exactly one list afterwards, of the destination and by level and
      kind, and no longer on any of the offering core. */
  lemma WaitingTakenOver(s: State, c: nat, j: Slot, from: nat, h: Place)
    requires Inv(s) && Enabled(s, Decide(c, j, from, true)) && s.jobs[j].state == Ready && s.jobs[j].link != Null
    ensures j in In(Step(s, Decide(c, j, from, true)).lists, h) <==>
              h == Filed(s, c, s.jobs[j]) || h == Hand(c, Accepted)
  {
    hide Inv, In, Added, Taken, Unlinked, Holders;
    var r, l, a := s.jobs[j], s.lists, Hand(c, Deciding(from));
    UnlinkUnderLock(s, c, j, from);
    InvSlot(s, j);
    SlotPaired(l, r, j);
    HeldOnce(l, r, j, a);
    HeldOnce(l, r, j, QueueFor(from, r));
    AcceptLists(l, j, a, QueueFor(from, r), HomeFor(s, c, r), Hand(c, Accepted));
  }

  /** A job reclaimed goes back to the queue of its kind if it is admissible, and to the shared list if not. */
  lemma ReclaimedTo(s: State, c: nat, j: Slot, admissible: bool)
    requires Inv(s) && Enabled(s, Reclaim(c, j, admissible))
    ensures var b := if !admissible then SharedDiscard else if s.jobs[j].replica then ReplicaQueue(c)
                     else ReadyQueue(c);
            j in In(Step(s, Reclaim(c, j, admissible)).lists, b)
  {
    hide Inv, In, Move, AtRest;
    ReclaimNeverDrops(s, c, j);
    MovedTo(s, j, s.jobs[j], DiscardList(c), QueueFor(c, s.jobs[j]));
    MovedTo(s, j, s.jobs[j], DiscardList(c), SharedDiscard);
  }
}
