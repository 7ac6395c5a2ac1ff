/** The lock-free ring buffer: any number of threads run blocking and non-blocking enqueues and
    dequeues, interleaved one atomic action at a time. A memory copy is several actions: while it
    runs, the slot may hold anything. */
module RingBuffer {
  import opened Numbers

  /** Where a thread is inside an operation. A `ticket` is the index the thread has been given. */
  datatype Phase<T> =
    | Idle
    | EnqLoaded(elem: T, seen: nat)     // non-blocking: tail has been loaded
    | EnqMatched(elem: T, seen: nat)    // non-blocking: the slot's sequence number matched
    | EnqWait(elem: T, ticket: nat)     // blocking: spinning on the slot
    | EnqCopy(elem: T, ticket: nat)     // copying into the slot
    | EnqPublish(ticket: nat)           // copied, sequence number not yet stored
    | DeqLoaded(seen: nat)
    | DeqMatched(seen: nat)
    | DeqWait(ticket: nat)
    | DeqCopy(ticket: nat)
    | DeqPublish(ticket: nat, result: T)

  /** The history of one slot: how many elements have left it, and whether it holds another. */
  datatype Slot = Slot(round: nat, full: bool)

  /** The buffer and its threads. `sent` lists the elements in the order of their enqueue tickets,
      `received` maps a dequeue ticket to the element it returned, `discarded` holds the tickets
      dropped by clearing; these three and `slots` are a record of what happened. */
  datatype State<T> = State(
    size: nat, head: nat, tail: nat, seqs: seq<nat>, buf: seq<T>, threads: map<nat, Phase<T>>,
    sent: seq<T>, received: map<nat, T>, discarded: set<nat>, slots: seq<Slot>)

  datatype Action<T> =
    | TryEnqueue(elem: T)
    | Enqueue(elem: T)
    | TryDequeue
    | Dequeue
    | Continue          // the next atomic action of the operation in progress
    | Tear(junk: T)     // one part of a copy into the slot

  function SlotSeq(size: nat, s: nat, slot: Slot): nat {
    size * slot.round + s + if slot.full then 1 else 0
  }

  function FreshBuffer<T>(size: nat, buf: seq<T>, threads: set<nat>): State<T>
    requires |buf| == size
  {
    State(size, 0, 0, seq(size, i => i), buf, map t | t in threads :: Idle,
          [], map[], {}, seq(size, _ => Slot(0, false)))
  }

  // ---- one atomic action --------------------------------------------------------------------

  predicate Shape<T>(st: State<T>) {
    st.size >= 3 && |st.seqs| == |st.buf| == |st.slots| == st.size
  }

  function At(size: nat, k: nat): (s: nat)
    requires size > 0
    ensures s < size
  {
    k % size
  }

  function RoundOf(size: nat, k: nat): nat
    requires size > 0
  {
    TicketSlot(size, k);
    k / size
  }

  function SetPhase<T>(st: State<T>, t: nat, p: Phase<T>): State<T> {
    st.(threads := st.threads[t := p])
  }

  predicate Enabled<T>(st: State<T>, t: nat, a: Action<T>) {
    t in st.threads &&
    match a
    case TryEnqueue(_) | Enqueue(_) | TryDequeue | Dequeue => st.threads[t].Idle?
    case Continue => !st.threads[t].Idle?
    case Tear(_) => st.threads[t].EnqCopy?
  }

  function Step<T>(st: State<T>, t: nat, a: Action<T>): State<T>
    requires Shape(st) && Enabled(st, t, a)
  {
    match a
    case TryEnqueue(e) => SetPhase(st, t, EnqLoaded(e, st.tail))
    case Enqueue(e) =>
      SetPhase(st.(tail := st.tail + 1, sent := st.sent + [e]), t, EnqWait(e, st.tail))
    case TryDequeue => SetPhase(st, t, DeqLoaded(st.head))
    case Dequeue => SetPhase(st.(head := st.head + 1), t, DeqWait(st.head))
    case Tear(junk) => st.(buf := st.buf[At(st.size, st.threads[t].ticket) := junk])
    case Continue => ContinueStep(st, t)
  }

  function ContinueStep<T>(st: State<T>, t: nat): State<T>
    requires Shape(st) && t in st.threads && !st.threads[t].Idle?
  {
    match st.threads[t]
    case EnqLoaded(e, k) =>
      if st.seqs[At(st.size, k)] != k then SetPhase(st, t, Idle)
      else SetPhase(st, t, EnqMatched(e, k))
    case EnqMatched(e, k) =>
      if st.tail != k then SetPhase(st, t, Idle)
      else SetPhase(st.(tail := k + 1, sent := st.sent + [e]), t, EnqCopy(e, k))
    case EnqWait(e, k) =>
      if st.seqs[At(st.size, k)] != k then st else SetPhase(st, t, EnqCopy(e, k))
    case EnqCopy(e, k) =>
      SetPhase(st.(buf := st.buf[At(st.size, k) := e]), t, EnqPublish(k))
    case EnqPublish(k) =>
      SetPhase(st.(seqs := st.seqs[At(st.size, k) := k + 1],
                   slots := st.slots[At(st.size, k) := st.slots[At(st.size, k)].(full := true)]), t, Idle)
    case DeqLoaded(k) =>
      if st.seqs[At(st.size, k)] != k + 1 then SetPhase(st, t, Idle)
      else SetPhase(st, t, DeqMatched(k))
    case DeqMatched(k) =>
      if st.head != k then SetPhase(st, t, Idle)
      else SetPhase(st.(head := k + 1), t, DeqCopy(k))
    case DeqWait(k) =>
      if st.seqs[At(st.size, k)] != k + 1 then st else SetPhase(st, t, DeqCopy(k))
    case DeqCopy(k) =>
      SetPhase(st, t, DeqPublish(k, st.buf[At(st.size, k)]))
    case DeqPublish(k, e) =>
      SetPhase(st.(seqs := st.seqs[At(st.size, k) := k + st.size],
                   received := st.received[k := e],
                   slots := st.slots[At(st.size, k) := Slot(st.slots[At(st.size, k)].round + 1, false)]), t, Idle)
  }

  // ---- the invariant ------------------------------------------------------------------------

  predicate HoldsEnq<T>(p: Phase<T>) {
    p.EnqWait? || p.EnqCopy? || p.EnqPublish?
  }

  predicate HoldsDeq<T>(p: Phase<T>) {
    p.DeqWait? || p.DeqCopy? || p.DeqPublish?
  }

  /** The enqueue with ticket k has published its element. */
  predicate EnqDone(st: State, k: nat)
    requires Shape(st)
  {
    var slot := st.slots[At(st.size, k)];
    slot.round > RoundOf(st.size, k) || (slot.round == RoundOf(st.size, k) && slot.full)
  }

  /** The slot of ticket k has been released for the next round. */
  predicate DeqDone(st: State, k: nat)
    requires Shape(st)
  {
    st.slots[At(st.size, k)].round > RoundOf(st.size, k)
  }

  ghost predicate PhaseOk<T>(st: State<T>, p: Phase<T>)
    requires Shape(st) && |st.sent| == st.tail
  {
    match p
    case Idle => true
    case EnqLoaded(_, _) => true
    case EnqMatched(_, k) => st.slots[At(st.size, k)].round >= RoundOf(st.size, k)
    case EnqWait(e, k) => k < st.tail && st.sent[k] == e && !EnqDone(st, k)
    case EnqCopy(e, k) =>
      k < st.tail && st.sent[k] == e && st.slots[At(st.size, k)] == Slot(RoundOf(st.size, k), false)
    case EnqPublish(k) =>
      k < st.tail && st.buf[At(st.size, k)] == st.sent[k]
          && st.slots[At(st.size, k)] == Slot(RoundOf(st.size, k), false)
    case DeqLoaded(_) => true
    case DeqMatched(k) => EnqDone(st, k)
    case DeqWait(k) => k < st.head && !DeqDone(st, k)
    case DeqCopy(k) => k < st.head && st.slots[At(st.size, k)] == Slot(RoundOf(st.size, k), true)
    case DeqPublish(k, e) =>
      k < st.head && st.slots[At(st.size, k)] == Slot(RoundOf(st.size, k), true) && k < st.tail && e == st.sent[k]
  }

  predicate SameTicket<T>(p: Phase<T>, q: Phase<T>) {
    || (HoldsEnq(p) && HoldsEnq(q) && p.ticket == q.ticket)
    || (HoldsDeq(p) && HoldsDeq(q) && p.ticket == q.ticket)
  }

  /** No two threads hold the same ticket of the same kind. */
  ghost predicate TicketsDistinct<T>(threads: map<nat, Phase<T>>) {
    forall t, u :: t in threads && u in threads && t != u ==> !SameTicket(threads[t], threads[u])
  }

  predicate HoldsEnqTicket<T>(p: Phase<T>, k: nat) {
    HoldsEnq(p) && p.ticket == k
  }

  predicate HoldsDeqTicket<T>(p: Phase<T>, k: nat) {
    HoldsDeq(p) && p.ticket == k
  }

  ghost predicate EnqHeld<T>(threads: map<nat, Phase<T>>, k: nat) {
    exists t :: t in threads && HoldsEnqTicket(threads[t], k)
  }

  ghost predicate DeqHeld<T>(threads: map<nat, Phase<T>>, k: nat) {
    exists t :: t in threads && HoldsDeqTicket(threads[t], k)
  }

  /** Every ticket that has been given out is either finished or held by some thread. */
  ghost predicate Accounted<T>(st: State<T>)
    requires Shape(st)
  {
    && (forall k :: 0 <= k < st.tail ==>
          EnqDone(st, k) || EnqHeld(st.threads, k))
    && (forall k :: 0 <= k < st.head ==>
          DeqDone(st, k) || DeqHeld(st.threads, k))
  }

  /** A slot has only served tickets that were given out, and a full slot holds its element. */
  ghost predicate SlotOk<T>(st: State<T>, s: nat)
    requires Shape(st) && |st.sent| == st.tail && s < st.size
  {
    var slot := st.slots[s];
    && st.seqs[s] == SlotSeq(st.size, s, slot)
    && (slot.round > 0 ==> st.size * (slot.round - 1) + s < st.head
                           && st.size * (slot.round - 1) + s < st.tail)
    && (slot.full ==> st.size * slot.round + s < st.tail
                      && st.buf[s] == st.sent[st.size * slot.round + s])
  }

  /** Finished dequeues are exactly those that returned or discarded an element, and each returned
      the element sent under its own ticket. */
  ghost predicate ReceivedOk<T>(st: State<T>)
    requires Shape(st) && |st.sent| == st.tail
  {
    && (forall k :: k in st.received ==> k !in st.discarded && k < st.tail && st.received[k] == st.sent[k])
    && (forall k: nat :: DeqDone(st, k) <==> k in st.received || k in st.discarded)
  }

  ghost predicate Inv<T>(st: State<T>) {
    && Shape(st) && |st.sent| == st.tail
    && (forall s :: 0 <= s < st.size ==> SlotOk(st, s))
    && (forall t :: t in st.threads ==> PhaseOk(st, st.threads[t]))
    && TicketsDistinct(st.threads)
    && Accounted(st)
    && ReceivedOk(st)
  }

  // ---- arithmetic of tickets and slots ------------------------------------------------------

  lemma TicketSlot(size: nat, k: nat)
    requires size > 0
    ensures k == size * (k / size) + k % size && 0 <= k % size < size && k / size >= 0
  {
    QuotientMonotone(size, 0, 0, k / size, k % size);
  }

  lemma SlotTicket(size: nat, q: nat, s: nat)
    requires s < size
    ensures size * q + s >= 0
    ensures (size * q + s) / size == q && (size * q + s) % size == s
  {
    MulWeak(size, 0, q);
    DivModUnique(size * q + s, size, q, s);
  }

  /** Tickets with the same slot and the same round are the same. */
  lemma SameRound(size: nat, j: nat, k: nat)
    requires size > 0 && j % size == k % size && j / size == k / size
    ensures j == k
  {
    TicketSlot(size, j);
    TicketSlot(size, k);
  }

  /** Comparing the sequence number with a ticket tells the state of the slot. */
  lemma SeqTells(st: State, k: nat)
    requires Shape(st) && st.seqs[At(st.size, k)] == SlotSeq(st.size, At(st.size, k), st.slots[At(st.size, k)])
    ensures st.seqs[At(st.size, k)] == k <==> st.slots[At(st.size, k)] == Slot(RoundOf(st.size, k), false)
    ensures st.seqs[At(st.size, k)] == k + 1 <==> st.slots[At(st.size, k)] == Slot(RoundOf(st.size, k), true)
  {
    var n, s, slot := st.size, At(st.size, k), st.slots[At(st.size, k)];
    TicketSlot(n, k);
    SeqCompare(n, s, slot, k / n, k);
  }

  lemma SeqCompare(n: nat, s: nat, slot: Slot, q: nat, k: nat)
    requires n >= 3 && k == n * q + s
    ensures SlotSeq(n, s, slot) == k <==> slot == Slot(q, false)
    ensures SlotSeq(n, s, slot) == k + 1 <==> slot == Slot(q, true)
  {
    if slot.round < q {
      MulStrict(n, slot.round, q);
    } else if slot.round > q {
      MulStrict(n, q, slot.round);
    }
  }

  lemma SlotOfTicket(size: nat, q: nat, s: nat)
    requires s < size
    ensures size * q + s >= 0
    ensures At(size, size * q + s) == s && RoundOf(size, size * q + s) == q
  {
    SlotTicket(size, q, s);
  }

  lemma TicketOfSlot(size: nat, k: nat)
    requires size > 0
    ensures k == size * RoundOf(size, k) + At(size, k)
  {
    TicketSlot(size, k);
  }

  lemma TicketDetermined(size: nat, j: nat, k: nat)
    requires size > 0 && At(size, j) == At(size, k) && RoundOf(size, j) == RoundOf(size, k)
    ensures j == k
  {
    SameRound(size, j, k);
  }

  // ---- preservation: what a change of one thread's phase keeps ------------------------------

  lemma DistinctKept<T>(threads: map<nat, Phase<T>>, t: nat, p: Phase<T>)
    requires TicketsDistinct(threads) && t in threads
    requires HoldsEnq(p) || HoldsDeq(p) ==> SameTicket(p, threads[t])
    ensures TicketsDistinct(threads[t := p])
  {
    var threads' := threads[t := p];
    forall u, v | u in threads' && v in threads' && u != v ensures !SameTicket(threads'[u], threads'[v]) {
      assert !SameTicket(threads[u], threads[v]);
    }
  }

  /** The ticket given out by a counter is new. */
  lemma DistinctNew<T>(threads: map<nat, Phase<T>>, t: nat, p: Phase<T>)
    requires TicketsDistinct(threads) && t in threads
    requires forall u :: u in threads && u != t ==> !SameTicket(p, threads[u])
    ensures TicketsDistinct(threads[t := p])
  {
    var threads' := threads[t := p];
    forall u, v | u in threads' && v in threads' && u != v ensures !SameTicket(threads'[u], threads'[v]) {
      assert SameTicket(p, threads'[v]) == SameTicket(threads'[v], p);
      assert SameTicket(p, threads'[u]) == SameTicket(threads'[u], p);
      assert u != t && v != t ==> !SameTicket(threads[u], threads[v]);
    }
  }

  /** Another phase for `t` leaves every ticket held that `t` does not give up. */
  lemma HeldKept<T>(threads: map<nat, Phase<T>>, t: nat, p: Phase<T>, k: nat)
    requires t in threads
    ensures EnqHeld(threads, k) && (HoldsEnqTicket(threads[t], k) ==> HoldsEnqTicket(p, k)) ==>
              EnqHeld(threads[t := p], k)
    ensures DeqHeld(threads, k) && (HoldsDeqTicket(threads[t], k) ==> HoldsDeqTicket(p, k)) ==>
              DeqHeld(threads[t := p], k)
  {
    var threads' := threads[t := p];
    if EnqHeld(threads, k) && (HoldsEnqTicket(threads[t], k) ==> HoldsEnqTicket(p, k)) {
      var u :| u in threads && HoldsEnqTicket(threads[u], k);
      assert u in threads' && HoldsEnqTicket(threads'[u], k);
    }
    if DeqHeld(threads, k) && (HoldsDeqTicket(threads[t], k) ==> HoldsDeqTicket(p, k)) {
      var u :| u in threads && HoldsDeqTicket(threads[u], k);
      assert u in threads' && HoldsDeqTicket(threads'[u], k);
    }
  }

  lemma NewHolder<T>(threads: map<nat, Phase<T>>, t: nat, p: Phase<T>, k: nat)
    ensures HoldsEnqTicket(p, k) ==> EnqHeld(threads[t := p], k)
    ensures HoldsDeqTicket(p, k) ==> DeqHeld(threads[t := p], k)
  {
    var threads' := threads[t := p];
    assert t in threads' && threads'[t] == p;
  }

  predicate KeepsTicket<T>(p: Phase<T>, q: Phase<T>) {
    && HoldsEnq(p) == HoldsEnq(q) && HoldsDeq(p) == HoldsDeq(q)
    && (HoldsEnq(p) || HoldsDeq(p) ==> p.ticket == q.ticket)
  }

  /** A new phase with the same ticket. */
  lemma PhaseKept<T>(st: State<T>, t: nat, p: Phase<T>)
    requires Inv(st) && t in st.threads && PhaseOk(st, p) && KeepsTicket(p, st.threads[t])
    ensures Inv(SetPhase(st, t, p))
  {
    hide At, RoundOf, SlotSeq, TicketsDistinct, EnqHeld, DeqHeld;
    var st' := SetPhase(st, t, p);
    DistinctKept(st.threads, t, p);
    forall s | 0 <= s < st.size ensures SlotOk(st', s) {
      assert SlotOk(st, s);
    }
    forall u | u in st'.threads ensures PhaseOk(st', st'.threads[u]) {
      assert PhaseOk(st, st.threads[u]);
    }
    forall k: nat
      ensures k < st.tail ==> EnqDone(st', k) || EnqHeld(st'.threads, k)
      ensures k < st.head ==> DeqDone(st', k) || DeqHeld(st'.threads, k)
    {
      HeldKept(st.threads, t, p, k);
      assert EnqDone(st', k) == EnqDone(st, k) && DeqDone(st', k) == DeqDone(st, k);
    }
    forall k: nat ensures DeqDone(st', k) <==> k in st'.received || k in st'.discarded {
      assert DeqDone(st', k) == DeqDone(st, k);
    }
  }

  // ---- preservation: tickets ----------------------------------------------------------------

  /** The ticket about to be given out is unused: its slot has not reached its round. */
  lemma FreshEnqTicket(st: State)
    requires Inv(st)
    ensures !EnqDone(st, st.tail)
  {
    var k, s := st.tail, At(st.size, st.tail);
    assert SlotOk(st, s);
    TicketOfSlot(st.size, k);
    var slot, q := st.slots[s], RoundOf(st.size, k);
    if slot.round > q {
      MulWeak(st.size, q, slot.round - 1);
    }
  }

  lemma FreshDeqTicket(st: State)
    requires Inv(st)
    ensures !DeqDone(st, st.head)
  {
    var k, s := st.head, At(st.size, st.head);
    assert SlotOk(st, s);
    TicketOfSlot(st.size, k);
    var slot, q := st.slots[s], RoundOf(st.size, k);
    if slot.round > q {
      MulWeak(st.size, q, slot.round - 1);
    }
  }

  lemma TakeEnqTicket<T>(st: State<T>, t: nat, e: T, p: Phase<T>)
    requires Inv(st) && t in st.threads && HoldsEnqTicket(p, st.tail)
    requires !HoldsEnq(st.threads[t]) && !HoldsDeq(st.threads[t])
    requires PhaseOk(st.(tail := st.tail + 1, sent := st.sent + [e]), p)
    ensures Inv(SetPhase(st.(tail := st.tail + 1, sent := st.sent + [e]), t, p))
  {
    hide At, RoundOf, SlotSeq, TicketsDistinct, EnqHeld, DeqHeld;
    var st' := SetPhase(st.(tail := st.tail + 1, sent := st.sent + [e]), t, p);
    forall u | u in st.threads && u != t ensures !SameTicket(p, st.threads[u]) {
      assert PhaseOk(st, st.threads[u]);
    }
    DistinctNew(st.threads, t, p);
    forall s | 0 <= s < st.size ensures SlotOk(st', s) {
      assert SlotOk(st, s);
    }
    forall u | u in st'.threads ensures PhaseOk(st', st'.threads[u]) {
      assert PhaseOk(st, st.threads[u]);
    }
    NewHolder(st.threads, t, p, st.tail);
    forall k: nat
      ensures k < st'.tail ==> EnqDone(st', k) || EnqHeld(st'.threads, k)
      ensures k < st'.head ==> DeqDone(st', k) || DeqHeld(st'.threads, k)
    {
      HeldKept(st.threads, t, p, k);
      assert EnqDone(st', k) == EnqDone(st, k) && DeqDone(st', k) == DeqDone(st, k);
    }
    forall k: nat ensures DeqDone(st', k) <==> k in st'.received || k in st'.discarded {
      assert DeqDone(st', k) == DeqDone(st, k);
    }
  }

  lemma TakeDeqTicket<T>(st: State<T>, t: nat, p: Phase<T>)
    requires Inv(st) && t in st.threads && HoldsDeqTicket(p, st.head)
    requires !HoldsEnq(st.threads[t]) && !HoldsDeq(st.threads[t])
    requires PhaseOk(st.(head := st.head + 1), p)
    ensures Inv(SetPhase(st.(head := st.head + 1), t, p))
  {
    hide At, RoundOf, SlotSeq, TicketsDistinct, EnqHeld, DeqHeld;
    var st' := SetPhase(st.(head := st.head + 1), t, p);
    forall u | u in st.threads && u != t ensures !SameTicket(p, st.threads[u]) {
      assert PhaseOk(st, st.threads[u]);
    }
    DistinctNew(st.threads, t, p);
    forall s | 0 <= s < st.size ensures SlotOk(st', s) {
      assert SlotOk(st, s);
    }
    forall u | u in st'.threads ensures PhaseOk(st', st'.threads[u]) {
      assert PhaseOk(st, st.threads[u]);
    }
    NewHolder(st.threads, t, p, st.head);
    forall k: nat
      ensures k < st'.tail ==> EnqDone(st', k) || EnqHeld(st'.threads, k)
      ensures k < st'.head ==> DeqDone(st', k) || DeqHeld(st'.threads, k)
    {
      HeldKept(st.threads, t, p, k);
      assert EnqDone(st', k) == EnqDone(st, k) && DeqDone(st', k) == DeqDone(st, k);
    }
    forall k: nat ensures DeqDone(st', k) <==> k in st'.received || k in st'.discarded {
      assert DeqDone(st', k) == DeqDone(st, k);
    }
  }

  // ---- preservation: copying and publishing -------------------------------------------------

  /** Another thread that owns the same slot in the same state would hold the same ticket. */
  lemma SoleOwner<T>(st: State<T>, t: nat, u: nat)
    requires Inv(st) && t in st.threads && u in st.threads && t != u
    requires (HoldsEnq(st.threads[t]) && HoldsEnq(st.threads[u]))
          || (HoldsDeq(st.threads[t]) && HoldsDeq(st.threads[u]))
    ensures var j, k := st.threads[u].ticket, st.threads[t].ticket;
            At(st.size, j) == At(st.size, k) ==> RoundOf(st.size, j) != RoundOf(st.size, k)
  {
    hide At, RoundOf;
    var j, k := st.threads[u].ticket, st.threads[t].ticket;
    assert !SameTicket(st.threads[t], st.threads[u]);
    if At(st.size, j) == At(st.size, k) && RoundOf(st.size, j) == RoundOf(st.size, k) {
      TicketDetermined(st.size, j, k);
    }
  }

  lemma WriteSlot<T>(st: State<T>, t: nat, v: T)
    requires Inv(st) && t in st.threads && st.threads[t].EnqCopy?
    ensures Inv(st.(buf := st.buf[At(st.size, st.threads[t].ticket) := v]))
  {
    hide At, RoundOf, SlotSeq, TicketsDistinct, EnqHeld, DeqHeld;
    var k := st.threads[t].ticket;
    var st' := st.(buf := st.buf[At(st.size, k) := v]);
    assert PhaseOk(st, st.threads[t]);
    forall s | 0 <= s < st.size ensures SlotOk(st', s) {
      assert SlotOk(st, s);
    }
    forall u | u in st'.threads ensures PhaseOk(st', st'.threads[u]) {
      assert PhaseOk(st, st.threads[u]);
      if u != t && st.threads[u].EnqPublish? {
        SoleOwner(st, t, u);
      }
    }
    forall k: nat ensures EnqDone(st', k) == EnqDone(st, k) && DeqDone(st', k) == DeqDone(st, k) {
    }
  }

  function Published<T>(st: State<T>, t: nat): State<T>
    requires Shape(st) && t in st.threads && st.threads[t].EnqPublish?
  {
    var s := At(st.size, st.threads[t].ticket);
    SetPhase(st.(seqs := st.seqs[s := st.threads[t].ticket + 1],
                 slots := st.slots[s := st.slots[s].(full := true)]), t, Idle)
  }

  lemma PublishEnq<T>(st: State<T>, t: nat)
    requires Inv(st) && t in st.threads && st.threads[t].EnqPublish?
    ensures Inv(Published(st, t))
  {
    hide At, RoundOf, TicketsDistinct, EnqHeld, DeqHeld;
    var k := st.threads[t].ticket;
    var st' := Published(st, t);
    assert PhaseOk(st, st.threads[t]);
    TicketOfSlot(st.size, k);
    DistinctKept(st.threads, t, Idle);
    forall s | 0 <= s < st.size ensures SlotOk(st', s) {
      assert SlotOk(st, s);
    }
    forall u | u in st'.threads ensures PhaseOk(st', st'.threads[u]) {
      assert PhaseOk(st, st.threads[u]);
      if u != t && HoldsEnq(st.threads[u]) {
        SoleOwner(st, t, u);
      }
    }
    forall j: nat
      ensures j < st'.tail ==> EnqDone(st', j) || EnqHeld(st'.threads, j)
      ensures j < st'.head ==> DeqDone(st', j) || DeqHeld(st'.threads, j)
    {
      HeldKept(st.threads, t, Idle, j);
      assert EnqDone(st, j) ==> EnqDone(st', j);
      assert EnqDone(st', k);
      assert DeqDone(st', j) == DeqDone(st, j);
    }
    forall j: nat ensures DeqDone(st', j) <==> j in st'.received || j in st'.discarded {
      assert DeqDone(st', j) == DeqDone(st, j);
    }
  }

  function Released<T>(st: State<T>, t: nat): State<T>
    requires Shape(st) && t in st.threads && st.threads[t].DeqPublish?
  {
    var k := st.threads[t].ticket;
    var s := At(st.size, k);
    SetPhase(st.(seqs := st.seqs[s := k + st.size],
                 received := st.received[k := st.threads[t].result],
                 slots := st.slots[s := Slot(st.slots[s].round + 1, false)]), t, Idle)
  }

  lemma PublishDeq<T>(st: State<T>, t: nat)
    requires Inv(st) && t in st.threads && st.threads[t].DeqPublish?
    ensures Inv(Released(st, t))
  {
    hide At, RoundOf, TicketsDistinct, EnqHeld, DeqHeld;
    var k := st.threads[t].ticket;
    var st' := Released(st, t);
    assert PhaseOk(st, st.threads[t]);
    TicketOfSlot(st.size, k);
    ReleasedSlot(st.size, RoundOf(st.size, k), At(st.size, k), k);
    DistinctKept(st.threads, t, Idle);
    forall s | 0 <= s < st.size ensures SlotOk(st', s) {
      assert SlotOk(st, s);
    }
    forall u | u in st'.threads ensures PhaseOk(st', st'.threads[u]) {
      assert PhaseOk(st, st.threads[u]);
      if u != t && HoldsDeq(st.threads[u]) {
        SoleOwner(st, t, u);
      }
    }
    forall j: nat
      ensures j < st'.tail ==> EnqDone(st', j) || EnqHeld(st'.threads, j)
      ensures j < st'.head ==> DeqDone(st', j) || DeqHeld(st'.threads, j)
    {
      HeldKept(st.threads, t, Idle, j);
      assert EnqDone(st', j) == EnqDone(st, j);
      assert DeqDone(st, j) ==> DeqDone(st', j);
      assert DeqDone(st', k);
    }
    forall j: nat ensures DeqDone(st', j) <==> j in st'.received || j in st'.discarded {
      OnlyOneReleased(st, k, j);
      assert DeqDone(st, j) <==> j in st.received || j in st.discarded;
    }
    assert !DeqDone(st, k);
  }

  lemma ReleasedSlot(size: nat, q: nat, s: nat, k: nat)
    requires k == size * q + s
    ensures k + size == size * (q + 1) + s
  {
  }

  /** Releasing ticket k finishes no other ticket. */
  lemma OnlyOneReleased<T>(st: State<T>, k: nat, j: nat)
    requires Shape(st) && st.slots[At(st.size, k)] == Slot(RoundOf(st.size, k), true)
    ensures var slots := st.slots[At(st.size, k) := Slot(RoundOf(st.size, k) + 1, false)];
            DeqDone(st.(slots := slots), j) <==> DeqDone(st, j) || j == k
  {
    hide At, RoundOf;
    if At(st.size, j) == At(st.size, k) && RoundOf(st.size, j) == RoundOf(st.size, k) {
      TicketDetermined(st.size, j, k);
    }
  }

  // ---- every action, every run --------------------------------------------------------------

  lemma FreshBufferInv<T>(size: nat, buf: seq<T>, threads: set<nat>)
    requires |buf| == size && size >= 3
    ensures Inv(FreshBuffer(size, buf, threads))
  {
    hide At;
    var st := FreshBuffer(size, buf, threads);
    forall s | 0 <= s < size ensures SlotOk(st, s) {
    }
    forall k: nat ensures !DeqDone(st, k) {
    }
  }

  lemma ContinueKeepsInv<T>(st: State<T>, t: nat)
    requires Inv(st) && t in st.threads && !st.threads[t].Idle?
    ensures Inv(ContinueStep(st, t))
  {
    hide At, RoundOf, SlotSeq, TicketsDistinct, EnqHeld, DeqHeld, Accounted, ReceivedOk;
    assert PhaseOk(st, st.threads[t]);
    match st.threads[t]
    case EnqLoaded(e, k) =>
      assert SlotOk(st, At(st.size, k));
      SeqTells(st, k);
      PhaseKept(st, t, Idle);
      if st.seqs[At(st.size, k)] == k {
        PhaseKept(st, t, EnqMatched(e, k));
      }
    case EnqMatched(e, k) =>
      if st.tail == k {
        FreshEnqTicket(st);
        TakeEnqTicket(st, t, e, EnqCopy(e, k));
      } else {
        PhaseKept(st, t, Idle);
      }
    case EnqWait(e, k) =>
      assert SlotOk(st, At(st.size, k));
      SeqTells(st, k);
      if st.seqs[At(st.size, k)] == k {
        PhaseKept(st, t, EnqCopy(e, k));
      }
    case EnqCopy(e, k) =>
      WriteSlot(st, t, e);
      PhaseKept(st.(buf := st.buf[At(st.size, k) := e]), t, EnqPublish(k));
    case EnqPublish(k) =>
      PublishEnq(st, t);
    case DeqLoaded(k) =>
      assert SlotOk(st, At(st.size, k));
      SeqTells(st, k);
      PhaseKept(st, t, Idle);
      if st.seqs[At(st.size, k)] == k + 1 {
        PhaseKept(st, t, DeqMatched(k));
      }
    case DeqMatched(k) =>
      if st.head == k {
        FreshDeqTicket(st);
        TakeDeqTicket(st, t, DeqCopy(k));
      } else {
        PhaseKept(st, t, Idle);
      }
    case DeqWait(k) =>
      assert SlotOk(st, At(st.size, k));
      SeqTells(st, k);
      if st.seqs[At(st.size, k)] == k + 1 {
        PhaseKept(st, t, DeqCopy(k));
      }
    case DeqCopy(k) =>
      FullSlotHolds(st, k);
      PhaseKept(st, t, DeqPublish(k, st.buf[At(st.size, k)]));
    case DeqPublish(k, e) =>
      PublishDeq(st, t);
  }

  /** A full slot holds the element sent under its current ticket. */
  lemma FullSlotHolds<T>(st: State<T>, k: nat)
    requires Inv(st) && st.slots[At(st.size, k)] == Slot(RoundOf(st.size, k), true)
    ensures k < st.tail && st.buf[At(st.size, k)] == st.sent[k]
  {
    hide At, RoundOf;
    TicketOfSlot(st.size, k);
    assert SlotOk(st, At(st.size, k));
  }

  lemma StepKeepsInv<T>(st: State<T>, t: nat, a: Action<T>)
    requires Inv(st) && Enabled(st, t, a)
    ensures Inv(Step(st, t, a))
  {
    hide At, RoundOf, SlotSeq, TicketsDistinct, EnqHeld, DeqHeld, Accounted, ReceivedOk, ContinueStep;
    match a
    case TryEnqueue(e) => PhaseKept(st, t, EnqLoaded(e, st.tail));
    case Enqueue(e) =>
      FreshEnqTicket(st);
      TakeEnqTicket(st, t, e, EnqWait(e, st.tail));
    case TryDequeue => PhaseKept(st, t, DeqLoaded(st.head));
    case Dequeue =>
      FreshDeqTicket(st);
      TakeDeqTicket(st, t, DeqWait(st.head));
    case Tear(junk) => WriteSlot(st, t, junk);
    case Continue => ContinueKeepsInv(st, t);
  }

  /** An interleaving: which thread acts, and how, at each instant. */
  datatype Event<T> = Event(thread: nat, action: Action<T>)

  predicate Legal<T>(st: State<T>, events: seq<Event<T>>)
    decreases |events|
  {
    events == [] ||
    (Shape(st) && Enabled(st, events[0].thread, events[0].action)
     && Legal(Step(st, events[0].thread, events[0].action), events[1..]))
  }

  function Run<T>(st: State<T>, events: seq<Event<T>>): State<T>
    requires Legal(st, events)
    decreases |events|
  {
    if events == [] then st
    else Run(Step(st, events[0].thread, events[0].action), events[1..])
  }

  lemma {:induction false} RunKeepsInv<T>(st: State<T>, events: seq<Event<T>>)
    requires Inv(st) && Legal(st, events)
    ensures Inv(Run(st, events))
    decreases |events|
  {
    hide Inv, Step;
    if events != [] {
      StepKeepsInv(st, events[0].thread, events[0].action);
      RunKeepsInv(Step(st, events[0].thread, events[0].action), events[1..]);
    }
  }

  // ---- what callers can rely on -------------------------------------------------------------

  /** A ticket whose element has left was given out on both sides. */
  lemma DoneBounds<T>(st: State<T>, k: nat)
    requires Inv(st)
    ensures DeqDone(st, k) ==> k < st.head && k < st.tail && EnqDone(st, k)
    ensures EnqDone(st, k) ==> k < st.tail
  {
    var s := At(st.size, k);
    assert SlotOk(st, s);
    TicketOfSlot(st.size, k);
    var round, q := st.slots[s].round, RoundOf(st.size, k);
    if round > q {
      MulWeak(st.size, q, round - 1);
    }
  }

  /** In every run from an empty buffer, for any number of threads: each dequeue that has returned
      gave back the element of the enqueue with its own ticket. */
  lemma DequeueMatchesEnqueue<T>(size: nat, buf: seq<T>, threads: set<nat>, events: seq<Event<T>>, k: nat)
    requires |buf| == size && size >= 3 && Legal(FreshBuffer(size, buf, threads), events)
    requires k in Run(FreshBuffer(size, buf, threads), events).received
    ensures var st := Run(FreshBuffer(size, buf, threads), events);
            k < st.head && k < |st.sent| && st.received[k] == st.sent[k]
  {
    hide Step, FreshBuffer;
    FreshBufferInv(size, buf, threads);
    RunKeepsInv(FreshBuffer(size, buf, threads), events);
    var st := Run(FreshBuffer(size, buf, threads), events);
    DoneBounds(st, k);
    assert DeqDone(st, k);
  }

  /** A dequeue about to return holds the element of its ticket, and that ticket has not been
      returned or discarded before: nothing is delivered twice. */
  lemma ReturnsOnce<T>(st: State<T>, t: nat)
    requires Inv(st) && t in st.threads && st.threads[t].DeqPublish?
    ensures var k := st.threads[t].ticket;
            && k < st.tail && k < |st.sent| && st.threads[t].result == st.sent[k]
            && k !in st.received && k !in st.discarded
  {
    hide At, RoundOf;
    assert PhaseOk(st, st.threads[t]);
    assert !DeqDone(st, st.threads[t].ticket);
  }

  predicate Copying<T>(p: Phase<T>) {
    p.EnqCopy? || p.DeqCopy?
  }

  /** Two threads never copy to or from the same slot at the same time. */
  lemma ExclusiveSlots<T>(st: State<T>, t: nat, u: nat)
    requires Inv(st) && t in st.threads && u in st.threads && t != u
    requires Copying(st.threads[t]) && Copying(st.threads[u])
    ensures At(st.size, st.threads[t].ticket) != At(st.size, st.threads[u].ticket)
  {
    hide At, RoundOf;
    assert PhaseOk(st, st.threads[t]) && PhaseOk(st, st.threads[u]);
    if st.threads[t].EnqCopy? == st.threads[u].EnqCopy? {
      SoleOwner(st, t, u);
    }
  }

  /** A slot is only written when every earlier element placed in it has left the buffer. */
  lemma NoUnreadOverwrite<T>(st: State<T>, t: nat, j: nat)
    requires Inv(st) && t in st.threads && st.threads[t].EnqCopy?
    requires j < st.threads[t].ticket && At(st.size, j) == At(st.size, st.threads[t].ticket)
    ensures j in st.received || j in st.discarded
  {
    var k := st.threads[t].ticket;
    assert PhaseOk(st, st.threads[t]);
    TicketOfSlot(st.size, j);
    TicketOfSlot(st.size, k);
    var q, r := RoundOf(st.size, j), RoundOf(st.size, k);
    if q >= r {
      MulWeak(st.size, r, q);
    }
    assert DeqDone(st, j);
  }

  /** In every run of any number of threads, whatever blocking and non-blocking operations they mix:
      two threads copying at the same time work on different slots, a slot being written holds
      nothing unread, and an element about to be returned has not been returned before. */
  lemma SlotsSafeInRuns<T>(size: nat, buf: seq<T>, threads: set<nat>, events: seq<Event<T>>, t: nat, u: nat, j: nat)
    requires |buf| == size && size >= 3 && Legal(FreshBuffer(size, buf, threads), events)
    requires t in Run(FreshBuffer(size, buf, threads), events).threads
    requires u in Run(FreshBuffer(size, buf, threads), events).threads && t != u
    ensures var st := Run(FreshBuffer(size, buf, threads), events);
            var p, q := st.threads[t], st.threads[u];
            && st.size > 0
            && (Copying(p) && Copying(q) ==> At(st.size, p.ticket) != At(st.size, q.ticket))
            && (p.EnqCopy? && j < p.ticket && At(st.size, j) == At(st.size, p.ticket) ==>
                  j in st.received || j in st.discarded)
            && (p.DeqPublish? ==> p.ticket < |st.sent| && p.result == st.sent[p.ticket] && p.ticket !in st.received)
  {
    hide Step, FreshBuffer, Inv, At;
    FreshBufferInv(size, buf, threads);
    RunKeepsInv(FreshBuffer(size, buf, threads), events);
    var st := Run(FreshBuffer(size, buf, threads), events);
    var p, q := st.threads[t], st.threads[u];
    InvShape(st);
    if Copying(p) && Copying(q) {
      ExclusiveSlots(st, t, u);
    }
    if p.EnqCopy? && j < p.ticket && At(st.size, j) == At(st.size, p.ticket) {
      NoUnreadOverwrite(st, t, j);
    }
    if p.DeqPublish? {
      ReturnsOnce(st, t);
    }
  }

  /** Elements keep their tickets, and returned elements stay returned, over any run. */
  lemma {:induction false} HistoryGrows<T>(st: State<T>, events: seq<Event<T>>)
    requires Inv(st) && Legal(st, events)
    ensures var st' := Run(st, events);
            && st.sent <= st'.sent
            && (forall k :: k in st.received ==> k in st'.received && st'.received[k] == st.received[k])
            && st'.discarded == st.discarded
    decreases |events|
  {
    if events != [] {
      var t, a := events[0].thread, events[0].action;
      StepKeepsInv(st, t, a);
      StepHistory(st, t, a);
      hide Inv, Step;
      HistoryGrows(Step(st, t, a), events[1..]);
    }
  }

  lemma StepHistory<T>(st: State<T>, t: nat, a: Action<T>)
    requires Inv(st) && Enabled(st, t, a)
    ensures var st' := Step(st, t, a);
            && st.sent <= st'.sent
            && (forall k :: k in st.received ==> k in st'.received && st'.received[k] == st.received[k])
            && st'.discarded == st.discarded
  {
    hide At, RoundOf, SlotSeq, TicketsDistinct, Accounted;
    if st.threads[t].DeqPublish? {
      ReturnsOnce(st, t);
    }
  }

  // ---- quiescence and clearing --------------------------------------------------------------

  predicate Quiescent<T>(st: State<T>) {
    forall t :: t in st.threads ==> st.threads[t].Idle?
  }

  lemma QuiescentDone<T>(st: State<T>, k: nat)
    requires Inv(st) && Quiescent(st)
    ensures EnqDone(st, k) <==> k < st.tail
    ensures DeqDone(st, k) <==> k < st.head
  {
    hide At, RoundOf;
    DoneBounds(st, k);
  }

  /** When no operation is in progress, the buffer is a queue: it holds the elements between the
      two counters, at most `size` of them, and every earlier element was returned or discarded. */
  lemma QuiescentQueue<T>(st: State<T>)
    requires Inv(st) && Quiescent(st)
    ensures st.head <= st.tail <= st.head + st.size
    ensures forall k: nat :: k in st.received || k in st.discarded <==> k < st.head
    ensures forall k: nat :: st.head <= k < st.tail ==>
              && st.slots[At(st.size, k)] == Slot(RoundOf(st.size, k), true)
              && st.buf[At(st.size, k)] == st.sent[k]
  {
    hide At, RoundOf;
    forall k: nat ensures k in st.received || k in st.discarded <==> k < st.head {
      QuiescentDone(st, k);
      assert DeqDone(st, k) <==> k in st.received || k in st.discarded;
    }
    if st.head > st.tail {
      QuiescentDone(st, st.head - 1);
    }
    if st.tail > st.head + st.size {
      RoundBefore(st, st.tail - 1);
    }
    forall k: nat | st.head <= k < st.tail
      ensures st.slots[At(st.size, k)] == Slot(RoundOf(st.size, k), true)
      ensures st.buf[At(st.size, k)] == st.sent[k]
    {
      QuiescentDone(st, k);
      FullSlotHolds(st, k);
    }
  }

  /** A published element implies that the element one round earlier has left. */
  lemma RoundBefore<T>(st: State<T>, k: nat)
    requires Inv(st) && Quiescent(st) && k < st.tail && k >= st.size
    ensures k - st.size < st.head
  {
    QuiescentDone(st, k);
    TicketOfSlot(st.size, k);
    var q, s := RoundOf(st.size, k), At(st.size, k);
    if q > 0 {
      ReleasedSlot(st.size, q - 1, s, k - st.size);
      SlotOfTicket(st.size, q - 1, s);
      QuiescentDone(st, k - st.size);
    }
  }

  /** Without interference, a non-blocking enqueue finds its slot free exactly when there is room,
      and a non-blocking dequeue finds its slot full exactly when there is an element. */
  lemma QuiescentTries<T>(st: State<T>)
    requires Inv(st) && Quiescent(st)
    ensures st.seqs[At(st.size, st.tail)] == st.tail <==> st.tail < st.head + st.size
    ensures st.seqs[At(st.size, st.head)] == st.head + 1 <==> st.head < st.tail
  {
    QuiescentQueue(st);
    SeqTells(st, st.head) by { assert SlotOk(st, At(st.size, st.head)); }
    SeqTells(st, st.tail) by { assert SlotOk(st, At(st.size, st.tail)); }
    QuiescentDone(st, st.head);
    QuiescentDone(st, st.tail);
    NextRound(st);
  }

  lemma NextRound<T>(st: State<T>)
    requires Inv(st) && Quiescent(st) && st.head <= st.tail <= st.head + st.size
    ensures st.slots[At(st.size, st.tail)] == Slot(RoundOf(st.size, st.tail), false) <==>
              st.tail < st.head + st.size
  {
    var k := st.tail;
    var q, s := RoundOf(st.size, k), At(st.size, k);
    TicketOfSlot(st.size, k);
    QuiescentDone(st, k);
    if q > 0 {
      ReleasedSlot(st.size, q - 1, s, k - st.size);
      SlotOfTicket(st.size, q - 1, s);
      QuiescentDone(st, k - st.size);
    }
  }

  /** Dropping the oldest element: one iteration of the clearing loop, with the head moved along. */
  function DropOne<T>(st: State<T>): State<T>
    requires Shape(st)
  {
    var k := st.head;
    var s := At(st.size, k);
    st.(head := k + 1, seqs := st.seqs[s := k + st.size], discarded := st.discarded + {k},
        slots := st.slots[s := Slot(st.slots[s].round + 1, false)])
  }

  function DropAll<T>(st: State<T>): State<T>
    requires Shape(st)
    decreases st.tail - st.head
  {
    if st.head >= st.tail then st else DropAll(DropOne(st))
  }

  lemma DropOneKeeps<T>(st: State<T>)
    requires Inv(st) && Quiescent(st) && st.head < st.tail
    ensures Inv(DropOne(st)) && Quiescent(DropOne(st))
  {
    var k := st.head;
    QuiescentQueue(st);
    hide At, RoundOf, TicketsDistinct, EnqHeld, DeqHeld;
    var st' := DropOne(st);
    TicketOfSlot(st.size, k);
    ReleasedSlot(st.size, RoundOf(st.size, k), At(st.size, k), k);
    forall s | 0 <= s < st.size ensures SlotOk(st', s) {
      assert SlotOk(st, s);
    }
    forall j: nat
      ensures DeqDone(st', j) <==> DeqDone(st, j) || j == k
      ensures EnqDone(st', j) == EnqDone(st, j)
      ensures j < st'.tail ==> EnqDone(st', j) || EnqHeld(st'.threads, j)
      ensures j < st'.head ==> DeqDone(st', j) || DeqHeld(st'.threads, j)
    {
      OnlyOneReleased(st, k, j);
      assert DeqDone(st', j) <==> DeqDone(st, j) || j == k;
    }
    forall j: nat ensures DeqDone(st', j) <==> j in st'.received || j in st'.discarded {
      assert DeqDone(st, j) <==> j in st.received || j in st.discarded;
    }
  }

  lemma InvShape<T>(st: State<T>)
    requires Inv(st)
    ensures Shape(st)
  {
  }

  /** Clearing a quiescent buffer keeps the invariant, empties the queue and returns nothing twice:
      the elements still inside are discarded, the others stay as they were. */
  lemma {:induction false} DropAllKeeps<T>(st: State<T>)
    requires Inv(st) && Quiescent(st)
    ensures Inv(DropAll(st)) && Quiescent(DropAll(st))
    ensures DropAll(st).head == DropAll(st).tail == st.tail
    ensures DropAll(st).buf == st.buf && DropAll(st).received == st.received && DropAll(st).sent == st.sent
    ensures forall k :: k in DropAll(st).discarded <==> k in st.discarded || st.head <= k < st.tail
    decreases st.tail - st.head
  {
    hide Inv, At, Quiescent;
    InvShape(st);
    QuiescentQueue(st);
    if st.head < st.tail {
      DropOneKeeps(st);
      DropAllKeeps(DropOne(st));
    }
  }

  /** The sequence numbers after the clearing loop. */
  function ClearedSeqs(seqs: seq<nat>, head: nat, tail: nat): seq<nat>
    requires |seqs| > 0
    decreases tail - head
  {
    if head >= tail then seqs
    else ClearedSeqs(seqs[At(|seqs|, head) := head + |seqs|], head + 1, tail)
  }

  lemma {:induction false} DropAllSeqs<T>(st: State<T>)
    requires Shape(st)
    ensures DropAll(st).seqs == ClearedSeqs(st.seqs, st.head, st.tail)
    ensures DropAll(st).size == st.size
    decreases st.tail - st.head
  {
    if st.head < st.tail {
      DropAllSeqs(DropOne(st));
    }
  }

  lemma {:induction false} ClearedSeqsStep(seqs: seq<nat>, head: nat, tail: nat)
    requires |seqs| > 0 && head <= tail
    ensures |ClearedSeqs(seqs, head, tail)| == |seqs|
    ensures ClearedSeqs(seqs, head, tail + 1)
         == ClearedSeqs(seqs, head, tail)[At(|seqs|, tail) := tail + |seqs|]
    decreases tail - head
  {
    if head < tail {
      ClearedSeqsStep(seqs[At(|seqs|, head) := head + |seqs|], head + 1, tail);
    } else {
      assert ClearedSeqs(seqs[At(|seqs|, head) := head + |seqs|], head + 1, tail + 1)
          == seqs[At(|seqs|, head) := head + |seqs|];
    }
  }

  // ---- the buffer object, for the operations that run without interference ------------------

  class Buffer<T> {
    var head: nat
    var tail: nat
    var seqs: array<nat>
    var buf: array<T>

    constructor (buffer: array<T>, seqs: array<nat>)
      requires (seqs as object) != (buffer as object)
      ensures buf == buffer && this.seqs == seqs
    {
      head, tail := 0, 0;
      buf := buffer;
      this.seqs := seqs;
    }

    /** The object and the threads' record describe the same buffer. */
    ghost predicate Represents(st: State<T>)
      reads this, seqs, buf
    {
      && st.head == head && st.tail == tail
      && st.seqs == seqs[..] && st.buf == buf[..]
      && (seqs as object) != (buf as object)
    }

    /** Sets the buffer up; fewer than three slots are refused. */
    method Init() returns (ok: bool)
      requires seqs.Length == buf.Length && (seqs as object) != (buf as object)
      modifies this`head, this`tail, seqs
      ensures ok <==> seqs.Length >= 3
      ensures !ok ==> unchanged(this) && unchanged(seqs)
      ensures ok ==> forall threads: set<nat> ::
                Inv(FreshBuffer(seqs.Length, buf[..], threads))
                && Represents(FreshBuffer(seqs.Length, buf[..], threads))
    {
      if seqs.Length < 3 {
        return false;
      }
      for i := 0 to seqs.Length
        invariant forall j :: 0 <= j < i ==> seqs[j] == j
        invariant head == old(head) && tail == old(tail)
      {
        seqs[i] := i;
      }
      head, tail := 0, 0;
      ok := true;
      forall threads: set<nat> ensures Inv(FreshBuffer(seqs.Length, buf[..], threads)) {
        FreshBufferInv(seqs.Length, buf[..], threads);
      }
    }

    /** Drops everything still in the buffer; the buffer must not be in use. */
    method Clear(ghost st: State<T>)
      requires Inv(st) && Quiescent(st) && Represents(st)
      modifies this`head, seqs
      ensures Represents(DropAll(st)) && Inv(DropAll(st))
      ensures head == tail == old(tail)
    {
      hide *;
      RepresentedFacts(st);
      QuiescentQueue(st);
      ghost var before := seqs[..];
      ghost var first := head;
      var i := head;
      while i < tail
        invariant first <= i <= tail == old(tail)
        invariant seqs[..] == ClearedSeqs(before, first, i)
        invariant head == first && buf[..] == st.buf
      {
        ClearedSeqsStep(before, first, i);
        seqs[At(seqs.Length, i)] := i + seqs.Length;
        i := i + 1;
      }
      head := tail;
      ClearedRepresents(st);
      DropAllKeeps(st);
    }

    lemma RepresentedFacts(st: State<T>)
      requires Inv(st) && Represents(st)
      ensures seqs.Length > 0 && Shape(st) && st.head == head && st.tail == tail
      ensures st.seqs == seqs[..] && st.buf == buf[..] && st.size == seqs.Length
      ensures (seqs as object) != (buf as object)
      ensures ClearedSeqs(seqs[..], head, head) == seqs[..]
    {
    }

    lemma ClearedRepresents(st: State<T>)
      requires Inv(st) && Quiescent(st)
      requires head == tail == st.tail && buf[..] == st.buf
      requires seqs[..] == ClearedSeqs(st.seqs, st.head, st.tail) && (seqs as object) != (buf as object)
      ensures Represents(DropAll(st))
    {
      DropAllSeqs(st);
      DropAllKeeps(st);
    }
  }
}
