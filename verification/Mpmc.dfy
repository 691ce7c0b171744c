/**
 The bounded multi-producer multi-consumer queue: a ring of slots, each with a sequence
 number, and two ticket counters. Any number of threads run enqueue and dequeue; a step is one
 atomic action of one thread (a load, a compare-exchange, a store, or the plain access to a
 slot's data), so a run is any interleaving.

 `tickets` and `deliveries` are bookkeeping the code does not have: what became of each ticket
 handed out so far, and what dequeue has returned.
 */
module Mpmc {
  import opened Wrappers

  type Tid = nat

  /** The life of a ticket, from the producer's compare-exchange to the consumer's release. */
  datatype Phase = Claimed | Stored | Published | Taken | Moved | Released

  datatype Ticket<T> = Ticket(value: T, phase: Phase, producer: Tid, consumer: Tid)

  datatype Slot<T> = Slot(sequence: int, data: T)

  /** Where a thread is. EnqDone and DeqDone hold the result until the caller looks at it. */
  datatype Pc<T> =
    | Idle
    | EnqLoad(item: T)
    | EnqSeq(item: T, pos: nat)
    | EnqCas(item: T, pos: nat)
    | EnqWrite(item: T, pos: nat)
    | EnqPublish(pos: nat)
    | EnqDone(ok: bool)
    | DeqLoad
    | DeqSeq(pos: nat)
    | DeqCas(pos: nat)
    | DeqRead(pos: nat)
    | DeqRelease(pos: nat, got: T)
    | DeqDone(result: Option<T>)

  datatype Delivery<T> = Delivery(pos: nat, value: T)

  datatype State<T> = State(
    n: nat,
    head: nat,
    tail: nat,
    slots: seq<Slot<T>>,
    threads: map<Tid, Pc<T>>,
    tickets: seq<Ticket<T>>,
    deliveries: seq<Delivery<T>>)

  function Init<T>(n: nat, blank: T, tids: set<Tid>): State<T> {
    State(n, 0, 0, seq(n, i => Slot(i, blank)), map t | t in tids :: Idle, [], [])
  }

  /** The slot of a ticket: its position modulo the number of slots. FastMod relates this to the
      code's bit mask. */
  function Cell(pos: nat, n: nat): (i: nat)
    requires n > 0
    ensures i < n
  {
    if pos < n then pos else Cell(pos - n, n)
  }

  ghost predicate Shape<T>(s: State<T>) {
    s.n >= 2 && |s.slots| == s.n && s.tail <= s.head == |s.tickets|
  }

  function Mark<T>(tickets: seq<Ticket<T>>, pos: nat, phase: Phase): seq<Ticket<T>> {
    if pos < |tickets| then tickets[pos := tickets[pos].(phase := phase)] else tickets
  }

  function Take<T>(tickets: seq<Ticket<T>>, pos: nat, t: Tid): seq<Ticket<T>> {
    if pos < |tickets| then tickets[pos := tickets[pos].(phase := Taken, consumer := t)] else tickets
  }

  function SetPc<T>(s: State<T>, t: Tid, pc: Pc<T>): State<T> {
    s.(threads := s.threads[t := pc])
  }

  function SetSlot<T>(s: State<T>, pos: nat, slot: Slot<T>): State<T>
    requires Shape(s)
  {
    s.(slots := s.slots[Cell(pos, s.n) := slot])
  }

  /** One atomic action of thread `t` inside an operation. A weak compare-exchange may fail even
      when the counter has the expected value: then `lucky` is false. */
  function Act<T>(s: State<T>, t: Tid, lucky: bool): State<T>
    requires Shape(s) && t in s.threads
  {
    match s.threads[t]
    case EnqLoad(v) => SetPc(s, t, EnqSeq(v, s.head))
    case EnqSeq(v, pos) =>
      var sequence := s.slots[Cell(pos, s.n)].sequence;
      SetPc(s, t, if sequence == pos then EnqCas(v, pos)
                  else if sequence < pos then EnqDone(false)
                  else EnqLoad(v))
    case EnqCas(v, pos) =>
      if lucky && s.head == pos then
        SetPc(s.(head := pos + 1, tickets := s.tickets + [Ticket(v, Claimed, t, t)]), t, EnqWrite(v, pos))
      else
        SetPc(s, t, EnqSeq(v, s.head))
    case EnqWrite(v, pos) =>
      SetPc(SetSlot(s, pos, s.slots[Cell(pos, s.n)].(data := v)), t, EnqPublish(pos))
      .(tickets := Mark(s.tickets, pos, Stored))
    case EnqPublish(pos) =>
      SetPc(SetSlot(s, pos, s.slots[Cell(pos, s.n)].(sequence := pos + 1)), t, EnqDone(true))
      .(tickets := Mark(s.tickets, pos, Published))
    case DeqLoad => SetPc(s, t, DeqSeq(s.tail))
    case DeqSeq(pos) =>
      var sequence := s.slots[Cell(pos, s.n)].sequence;
      SetPc(s, t, if sequence == pos + 1 then DeqCas(pos)
                  else if sequence < pos + 1 then DeqDone(None)
                  else DeqLoad)
    case DeqCas(pos) =>
      if lucky && s.tail == pos then
        SetPc(s.(tail := pos + 1, tickets := Take(s.tickets, pos, t)), t, DeqRead(pos))
      else
        SetPc(s, t, DeqSeq(s.tail))
    case DeqRead(pos) =>
      SetPc(s, t, DeqRelease(pos, s.slots[Cell(pos, s.n)].data)).(tickets := Mark(s.tickets, pos, Moved))
    case DeqRelease(pos, v) =>
      SetPc(SetSlot(s, pos, s.slots[Cell(pos, s.n)].(sequence := pos + s.n)), t, DeqDone(Some(v)))
      .(tickets := Mark(s.tickets, pos, Released), deliveries := s.deliveries + [Delivery(pos, v)])
    case _ => s
  }

  // ---------------------------------------------------------------------------------------
  // The invariant

  /** What a slot holds while ticket `pos`, in the given phase, is the last one to use it. */
  ghost predicate SlotShows<T>(slot: Slot<T>, k: Ticket<T>, pos: nat, n: nat) {
    && slot.sequence == (match k.phase
                         case Claimed => pos
                         case Stored => pos
                         case Released => pos + n
                         case _ => pos + 1)
    && (k.phase in {Stored, Published, Taken} ==> slot.data == k.value)
  }

  /** A ticket that is being worked on is being worked on by the thread it belongs to. */
  ghost predicate Worked<T>(s: State<T>, pos: nat)
    requires pos < |s.tickets|
  {
    var k := s.tickets[pos];
    match k.phase
    case Claimed => k.producer in s.threads && s.threads[k.producer] == EnqWrite(k.value, pos)
    case Stored => k.producer in s.threads && s.threads[k.producer] == EnqPublish(pos)
    case Taken => k.consumer in s.threads && s.threads[k.consumer] == DeqRead(pos)
    case Moved => k.consumer in s.threads && s.threads[k.consumer] == DeqRelease(pos, k.value)
    case _ => true
  }

  /** The ticket a thread owns at the moment. */
  function Holds<T>(pc: Pc<T>): Option<nat> {
    match pc
    case EnqWrite(_, pos) => Some(pos)
    case EnqPublish(pos) => Some(pos)
    case DeqRead(pos) => Some(pos)
    case DeqRelease(pos, _) => Some(pos)
    case _ => None
  }

  ghost predicate TicketOk<T>(s: State<T>, pos: nat)
    requires Shape(s) && pos < s.head
  {
    && (pos < s.tail <==> s.tickets[pos].phase in {Taken, Moved, Released})
    && (pos + s.n < s.head ==> s.tickets[pos].phase == Released)
    && (pos + s.n >= s.head ==> SlotShows(s.slots[Cell(pos, s.n)], s.tickets[pos], pos, s.n))
    && Worked(s, pos)
  }

  ghost predicate ThreadOk<T>(s: State<T>, t: Tid)
    requires Shape(s) && t in s.threads
  {
    match s.threads[t]
    case EnqSeq(_, pos) => pos <= s.head
    case EnqCas(_, pos) => pos <= s.head && (pos >= s.n ==> s.tickets[pos - s.n].phase == Released)
    case EnqWrite(v, pos) =>
      pos < s.head && s.tickets[pos].phase == Claimed && s.tickets[pos].producer == t && s.tickets[pos].value == v
    case EnqPublish(pos) => pos < s.head && s.tickets[pos].phase == Stored && s.tickets[pos].producer == t
    case DeqSeq(pos) => pos <= s.tail
    case DeqCas(pos) => pos <= s.tail && pos < s.head && s.tickets[pos].phase !in {Claimed, Stored}
    case DeqRead(pos) => pos < s.head && s.tickets[pos].phase == Taken && s.tickets[pos].consumer == t
    case DeqRelease(pos, v) =>
      pos < s.head && s.tickets[pos].phase == Moved && s.tickets[pos].consumer == t && s.tickets[pos].value == v
    case _ => true
  }

  ghost predicate TicketsOk<T>(s: State<T>)
    requires Shape(s)
  {
    forall pos :: 0 <= pos < s.head ==> TicketOk(s, pos)
  }

  ghost predicate ThreadsOk<T>(s: State<T>)
    requires Shape(s)
  {
    forall t :: t in s.threads ==> ThreadOk(s, t)
  }

  /** Slots no ticket has reached yet. */
  ghost predicate FreshOk<T>(s: State<T>)
    requires Shape(s)
  {
    forall i :: s.head <= i < s.n ==> s.slots[i].sequence == i
  }

  /** A ticket is released exactly when its value has been returned, once. */
  ghost predicate DeliveriesOk<T>(s: State<T>)
    requires Shape(s)
  {
    && (forall i :: 0 <= i < |s.deliveries| ==> DeliveryOk(s, s.deliveries[i]))
    && (forall i, j :: 0 <= i < j < |s.deliveries| ==> s.deliveries[i].pos != s.deliveries[j].pos)
    && (forall pos :: 0 <= pos < s.head && s.tickets[pos].phase == Released ==> Delivered(s, pos))
  }

  ghost predicate DeliveryOk<T>(s: State<T>, d: Delivery<T>)
    requires Shape(s)
  {
    d.pos < s.head && s.tickets[d.pos].phase == Released && s.tickets[d.pos].value == d.value
  }

  ghost predicate Delivered<T>(s: State<T>, pos: nat) {
    exists i :: 0 <= i < |s.deliveries| && s.deliveries[i].pos == pos
  }

  ghost predicate Inv<T>(s: State<T>) {
    Shape(s) && TicketsOk(s) && ThreadsOk(s) && FreshOk(s) && DeliveriesOk(s)
  }

  // ---------------------------------------------------------------------------------------
  // Every step keeps it

  /** Two tickets less than one lap apart use different slots. */
  lemma {:induction false} CellsDiffer(p: nat, q: nat, n: nat)
    requires n > 0 && p < q < p + n
    ensures Cell(p, n) != Cell(q, n)
  {
    if p >= n {
      CellsDiffer(p - n, q - n, n);
    }
  }

  /** Only thread `t` moves on, and no ticket is its to work on, before or after. */
  lemma PcOnly<T>(s: State<T>, t: Tid, pc: Pc<T>)
    requires Inv(s) && t in s.threads && ThreadOk(SetPc(s, t, pc), t)
    requires Holds(s.threads[t]).None?
    ensures Inv(SetPc(s, t, pc))
  {
    hide SlotShows, Cell;
    var s' := SetPc(s, t, pc);
    forall pos | 0 <= pos < s'.head ensures TicketOk(s', pos) {
      assert TicketOk(s, pos);
    }
    forall u | u in s'.threads ensures ThreadOk(s', u) {
      assert u != t ==> ThreadOk(s, u);
    }
    assert forall i :: 0 <= i < |s.deliveries| ==> DeliveryOk(s, s.deliveries[i]) && DeliveryOk(s', s.deliveries[i]);
    assert forall pos :: Delivered(s, pos) == Delivered(s', pos);
  }

  /** Slot `Cell(pos)` is the one ticket `pos` shows itself in; no other current ticket uses it. */
  lemma OtherSlot<T>(s: State<T>, pos: nat, q: nat)
    requires Shape(s) && pos < s.head && q < s.head && q != pos && pos + s.n >= s.head && q + s.n >= s.head
    ensures Cell(q, s.n) != Cell(pos, s.n)
  {
    if pos < q {
      CellsDiffer(pos, q, s.n);
    } else {
      CellsDiffer(q, pos, s.n);
    }
  }

  /** A thread works on ticket `pos`: the ticket moves to its next phase, only its own slot and
      the thread change. */
  ghost predicate Shifts<T>(s: State<T>, s': State<T>, t: Tid, pos: nat, k: Ticket<T>, pc: Pc<T>)
    requires Shape(s)
  {
    && s'.n == s.n && s'.head == s.head && |s'.slots| == |s.slots|
    && t in s.threads && s'.threads == s.threads[t := pc]
    && pos < s.head && s'.tickets == s.tickets[pos := k] && k.value == s.tickets[pos].value
    && s'.tail == (if k.phase == Taken then pos + 1 else s.tail)
    && (forall i :: 0 <= i < s.n && i != Cell(pos, s.n) ==> s'.slots[i] == s.slots[i])
  }

  /** The order of phases, and who moves a ticket on. */
  ghost predicate NextPhase<T>(k: Ticket<T>, k': Ticket<T>, t: Tid) {
    match k'.phase
    case Stored => k.phase == Claimed && k.producer == t && k'.producer == t
    case Published => k.phase == Stored && k.producer == t
    case Taken => k.phase == Published && k'.consumer == t
    case Moved => k.phase == Taken && k.consumer == t && k'.consumer == t
    case Released => k.phase == Moved && k.consumer == t
    case Claimed => false
  }

  lemma ShiftTicket<T>(s: State<T>, s': State<T>, t: Tid, pos: nat, k: Ticket<T>, pc: Pc<T>, q: nat)
    requires Inv(s) && Shape(s') && Shifts(s, s', t, pos, k, pc) && NextPhase(s.tickets[pos], k, t)
    requires k.phase == Taken ==> pos == s.tail
    requires Holds(s.threads[t]) in {None, Some(pos)}
    requires q < s.head && q != pos
    ensures TicketOk(s', q)
  {
    hide SlotShows, Cell, ThreadsOk, FreshOk, DeliveriesOk;
    assert TicketOk(s, q) && TicketOk(s, pos);
    if q + s.n >= s.head {
      OtherSlot(s, pos, q);
    }
  }

  lemma ShiftThread<T>(s: State<T>, s': State<T>, t: Tid, pos: nat, k: Ticket<T>, pc: Pc<T>, u: Tid)
    requires Inv(s) && Shape(s') && Shifts(s, s', t, pos, k, pc) && NextPhase(s.tickets[pos], k, t)
    requires u in s.threads && u != t && (k.phase == Taken ==> pos == s.tail)
    ensures ThreadOk(s', u)
  {
    hide Cell, TicketsOk, FreshOk, DeliveriesOk;
    assert ThreadOk(s, u);
  }

  lemma Shift<T>(s: State<T>, s': State<T>, t: Tid, pos: nat, k: Ticket<T>, pc: Pc<T>)
    requires Inv(s) && Shape(s') && Shifts(s, s', t, pos, k, pc) && NextPhase(s.tickets[pos], k, t)
    requires k.phase == Taken ==> pos == s.tail
    requires Holds(s.threads[t]) in {None, Some(pos)}
    requires SlotShows(s'.slots[Cell(pos, s.n)], k, pos, s.n) && Worked(s', pos) && ThreadOk(s', t)
    ensures TicketsOk(s') && ThreadsOk(s') && FreshOk(s')
  {
    hide SlotShows, Worked, ThreadOk, Cell, NextPhase, DeliveriesOk;
    forall q | 0 <= q < s'.head ensures TicketOk(s', q) {
      if q != pos {
        ShiftTicket(s, s', t, pos, k, pc, q);
      } else {
        ShiftedOk(s, s', t, pos, k, pc);
      }
    }
    forall u | u in s'.threads ensures ThreadOk(s', u) {
      if u != t {
        ShiftThread(s, s', t, pos, k, pc, u);
      }
    }
    forall i | s'.head <= i < s'.n ensures s'.slots[i].sequence == i {
      CellOfSmall(pos, s.n);
    }
  }

  lemma CellOfSmall(p: nat, n: nat)
    requires p < n
    ensures Cell(p, n) == p
  {
  }

  lemma ShiftedOk<T>(s: State<T>, s': State<T>, t: Tid, pos: nat, k: Ticket<T>, pc: Pc<T>)
    requires Inv(s) && Shape(s') && Shifts(s, s', t, pos, k, pc) && NextPhase(s.tickets[pos], k, t)
    requires k.phase == Taken ==> pos == s.tail
    requires SlotShows(s'.slots[Cell(pos, s.n)], k, pos, s.n) && Worked(s', pos)
    ensures TicketOk(s', pos)
  {
    hide SlotShows, Worked, Cell, ThreadsOk, FreshOk, DeliveriesOk;
    assert TicketOk(s, pos);
  }

  // ---------------------------------------------------------------------------------------
  // What a sequence number says

  lemma Bounded<T>(s: State<T>)
    requires Inv(s)
    ensures s.tail <= s.head <= s.tail + s.n
  {
    hide SlotShows, Cell, Worked;
    assert s.tail < s.head ==> TicketOk(s, s.tail);
  }

  /** The last ticket handed out for the slot of `pos`. */
  lemma {:induction false} Latest<T>(s: State<T>, pos: nat) returns (q: nat)
    requires Shape(s) && pos < s.head
    ensures pos <= q < s.head <= q + s.n && Cell(q, s.n) == Cell(pos, s.n) && (q == pos || pos + s.n <= q)
    decreases s.head - pos
  {
    if pos + s.n < s.head {
      q := Latest(s, pos + s.n);
    } else {
      q := pos;
    }
  }

  /** enqueue reads the sequence of ticket `pos`: the slot is free for it, a lap behind, or
      already used by it or a later ticket. */
  lemma EnqSees<T>(s: State<T>, pos: nat)
    requires Inv(s) && pos <= s.head
    ensures var sequence := s.slots[Cell(pos, s.n)].sequence;
            && (sequence < pos <==> pos >= s.n && s.tickets[pos - s.n].phase != Released)
            && (pos == s.head && !(sequence < pos) ==> sequence == pos)
  {
    hide Worked, ThreadsOk, DeliveriesOk, Cell;
    if pos < s.head {
      var q := Latest(s, pos);
      assert TicketOk(s, q);
      assert pos >= s.n ==> TicketOk(s, pos - s.n);
    } else if pos >= s.n {
      assert TicketOk(s, pos - s.n);
      CellLap(pos - s.n, s.n);
    } else {
      CellOfSmall(pos, s.n);
    }
  }

  lemma CellLap(p: nat, n: nat)
    requires n > 0
    ensures Cell(p + n, n) == Cell(p, n)
  {
  }

  /** dequeue reads the sequence of ticket `pos`: published and waiting, not published yet, or
      already taken. */
  lemma DeqSees<T>(s: State<T>, pos: nat)
    requires Inv(s) && pos <= s.tail
    ensures var sequence := s.slots[Cell(pos, s.n)].sequence;
            && (sequence < pos + 1 <==> pos == s.head || s.tickets[pos].phase in {Claimed, Stored})
            && (pos < s.tail ==> sequence >= pos + 1)
  {
    hide Worked, ThreadsOk, DeliveriesOk, Cell;
    Bounded(s);
    if pos < s.head {
      var q := Latest(s, pos);
      assert TicketOk(s, q) && TicketOk(s, pos);
    } else if pos >= s.n {
      assert TicketOk(s, pos - s.n);
      CellLap(pos - s.n, s.n);
    } else {
      CellOfSmall(pos, s.n);
    }
  }

  // ---------------------------------------------------------------------------------------
  // The steps

  lemma SameDeliveries<T>(s: State<T>, s': State<T>)
    requires Shape(s) && Shape(s') && DeliveriesOk(s) && s'.deliveries == s.deliveries && s.head <= s'.head
    requires forall pos :: 0 <= pos < s'.head ==>
               && (s'.tickets[pos].phase == Released <==> pos < s.head && s.tickets[pos].phase == Released)
               && (pos < s.head ==> s'.tickets[pos].value == s.tickets[pos].value)
    ensures DeliveriesOk(s')
  {
    assert forall i :: 0 <= i < |s.deliveries| ==> DeliveryOk(s, s.deliveries[i]) && DeliveryOk(s', s.deliveries[i]);
    assert forall pos :: Delivered(s, pos) == Delivered(s', pos);
  }

  /** The compare-exchange on head succeeds: a new ticket. */
  lemma ClaimInv<T>(s: State<T>, t: Tid, v: T)
    requires Inv(s) && t in s.threads && s.threads[t] == EnqCas(v, s.head)
    ensures Inv(Act(s, t, true))
  {
    hide Cell, FreshOk, DeliveriesOk;
    var s', pos := Act(s, t, true), s.head;
    assert ThreadOk(s, t);
    ClaimTickets(s, s', t, v);
    forall u | u in s'.threads ensures ThreadOk(s', u) {
      assert ThreadOk(s, u);
    }
    assert FreshOk(s') by {
      FreshShrinks(s, s');
    }
    SameDeliveries(s, s');
  }

  lemma FreshShrinks<T>(s: State<T>, s': State<T>)
    requires Shape(s) && Shape(s') && FreshOk(s) && s'.slots == s.slots && s'.n == s.n && s.head <= s'.head
    ensures FreshOk(s')
  {
  }

  lemma ClaimTickets<T>(s: State<T>, s': State<T>, t: Tid, v: T)
    requires Inv(s) && t in s.threads && s.threads[t] == EnqCas(v, s.head) && s' == Act(s, t, true)
    ensures TicketsOk(s')
  {
    hide DeliveriesOk, Cell;
    var pos := s.head;
    assert ThreadOk(s, t);
    EnqSees(s, pos);
    forall q | 0 <= q < s'.head ensures TicketOk(s', q) {
      if q < pos {
        assert TicketOk(s, q);
      }
    }
  }

  lemma StoreInv<T>(s: State<T>, t: Tid, v: T, pos: nat)
    requires Inv(s) && t in s.threads && s.threads[t] == EnqWrite(v, pos)
    ensures Inv(Act(s, t, true))
  {
    hide Cell, FreshOk, DeliveriesOk;
    var s' := Act(s, t, true);
    assert ThreadOk(s, t) && TicketOk(s, pos);
    Shift(s, s', t, pos, s.tickets[pos].(phase := Stored), EnqPublish(pos));
    SameDeliveries(s, s');
  }

  lemma PublishInv<T>(s: State<T>, t: Tid, pos: nat)
    requires Inv(s) && t in s.threads && s.threads[t] == EnqPublish(pos)
    ensures Inv(Act(s, t, true))
  {
    hide Cell, FreshOk, DeliveriesOk;
    var s' := Act(s, t, true);
    assert ThreadOk(s, t) && TicketOk(s, pos);
    Shift(s, s', t, pos, s.tickets[pos].(phase := Published), EnqDone(true));
    SameDeliveries(s, s');
  }

  /** The compare-exchange on tail succeeds. */
  lemma TakeInv<T>(s: State<T>, t: Tid)
    requires Inv(s) && t in s.threads && s.threads[t] == DeqCas(s.tail)
    ensures Inv(Act(s, t, true))
  {
    hide Cell, FreshOk, DeliveriesOk;
    var s', pos := Act(s, t, true), s.tail;
    assert ThreadOk(s, t) && TicketOk(s, pos);
    Bounded(s);
    Shift(s, s', t, pos, s.tickets[pos].(phase := Taken, consumer := t), DeqRead(pos));
    SameDeliveries(s, s');
  }

  lemma MoveInv<T>(s: State<T>, t: Tid, pos: nat)
    requires Inv(s) && t in s.threads && s.threads[t] == DeqRead(pos)
    ensures Inv(Act(s, t, true))
  {
    hide Cell, FreshOk, DeliveriesOk;
    var s' := Act(s, t, true);
    assert ThreadOk(s, t) && TicketOk(s, pos);
    Shift(s, s', t, pos, s.tickets[pos].(phase := Moved), DeqRelease(pos, s.tickets[pos].value));
    SameDeliveries(s, s');
  }

  lemma ReleaseInv<T>(s: State<T>, t: Tid, pos: nat, v: T)
    requires Inv(s) && t in s.threads && s.threads[t] == DeqRelease(pos, v)
    ensures Inv(Act(s, t, true))
  {
    hide Cell, FreshOk, DeliveriesOk;
    var s' := Act(s, t, true);
    assert ThreadOk(s, t) && TicketOk(s, pos);
    Shift(s, s', t, pos, s.tickets[pos].(phase := Released), DeqDone(Some(v)));
    ReleaseDeliveries(s, s', pos, v);
  }

  lemma ReleaseDeliveries<T>(s: State<T>, s': State<T>, pos: nat, v: T)
    requires Shape(s) && Shape(s') && DeliveriesOk(s) && pos < s.head == s'.head
    requires s.tickets[pos].phase == Moved && s.tickets[pos].value == v
    requires s'.tickets == Mark(s.tickets, pos, Released) && s'.deliveries == s.deliveries + [Delivery(pos, v)]
    ensures DeliveriesOk(s')
  {
    forall i | 0 <= i < |s'.deliveries| ensures DeliveryOk(s', s'.deliveries[i]) {
      assert i < |s.deliveries| ==> DeliveryOk(s, s.deliveries[i]);
    }
    forall q | 0 <= q < s'.head && s'.tickets[q].phase == Released ensures Delivered(s', q) {
      if q == pos {
        assert s'.deliveries[|s.deliveries|].pos == q;
      } else {
        assert Delivered(s, q);
        var i :| 0 <= i < |s.deliveries| && s.deliveries[i].pos == q;
        assert s'.deliveries[i].pos == q;
      }
    }
  }

  /** Every atomic action keeps the invariant. */
  lemma ActInv<T>(s: State<T>, t: Tid, lucky: bool)
    requires Inv(s) && t in s.threads
    ensures Inv(Act(s, t, lucky))
  {
    hide TicketsOk, FreshOk, DeliveriesOk, Cell;
    assert ThreadOk(s, t);
    match s.threads[t] {
      case EnqLoad(v) => PcOnly(s, t, EnqSeq(v, s.head));
      case EnqSeq(v, pos) => EnqSeqInv(s, t, v, pos);
      case EnqCas(v, pos) =>
        if lucky && s.head == pos { ClaimInv(s, t, v); } else { PcOnly(s, t, EnqSeq(v, s.head)); }
      case EnqWrite(v, pos) => StoreInv(s, t, v, pos);
      case EnqPublish(pos) => PublishInv(s, t, pos);
      case DeqLoad => PcOnly(s, t, DeqSeq(s.tail));
      case DeqSeq(pos) => DeqSeqInv(s, t, pos);
      case DeqCas(pos) =>
        if lucky && s.tail == pos { TakeInv(s, t); } else { PcOnly(s, t, DeqSeq(s.tail)); }
      case DeqRead(pos) => MoveInv(s, t, pos);
      case DeqRelease(pos, v) => ReleaseInv(s, t, pos, v);
      case _ =>
    }
  }

  lemma EnqSeqInv<T>(s: State<T>, t: Tid, v: T, pos: nat)
    requires Inv(s) && t in s.threads && s.threads[t] == EnqSeq(v, pos)
    ensures Inv(Act(s, t, true))
  {
    hide TicketsOk, FreshOk, DeliveriesOk, Cell;
    assert ThreadOk(s, t);
    EnqSees(s, pos);
    PcOnly(s, t, Act(s, t, true).threads[t]);
  }

  lemma DeqSeqInv<T>(s: State<T>, t: Tid, pos: nat)
    requires Inv(s) && t in s.threads && s.threads[t] == DeqSeq(pos)
    ensures Inv(Act(s, t, true))
  {
    hide TicketsOk, FreshOk, DeliveriesOk, Cell;
    assert ThreadOk(s, t);
    DeqSees(s, pos);
    PcOnly(s, t, Act(s, t, true).threads[t]);
  }

  // ---------------------------------------------------------------------------------------
  // Runs

  /** What a thread asks for next. */
  datatype Call<T> = Enqueue(item: T) | Dequeue

  /** A thread begins an operation, performs one atomic action of it, or looks at its result. */
  datatype Event<T> = Begin(t: Tid, call: Call<T>) | Go(t: Tid, lucky: bool) | Collect(t: Tid)

  ghost predicate Possible<T>(s: State<T>, e: Event<T>) {
    && Shape(s) && e.t in s.threads
    && match e
       case Begin(t, _) => s.threads[t] == Idle
       case Go(t, _) => true
       case Collect(t) => s.threads[t].EnqDone? || s.threads[t].DeqDone?
  }

  function Do<T>(s: State<T>, e: Event<T>): State<T>
    requires Possible(s, e)
  {
    match e
    case Begin(t, Enqueue(v)) => SetPc(s, t, EnqLoad(v))
    case Begin(t, Dequeue) => SetPc(s, t, DeqLoad)
    case Go(t, lucky) => Act(s, t, lucky)
    case Collect(t) => SetPc(s, t, Idle)
  }

  lemma InitInv<T>(n: nat, blank: T, tids: set<Tid>)
    requires n >= 2
    ensures Inv(Init(n, blank, tids))
  {
  }

  lemma DoInv<T>(s: State<T>, e: Event<T>)
    requires Inv(s) && Possible(s, e)
    ensures Inv(Do(s, e))
  {
    hide TicketsOk, FreshOk, DeliveriesOk, ThreadsOk;
    match e {
      case Begin(t, Enqueue(v)) => PcOnly(s, t, EnqLoad(v));
      case Begin(t, Dequeue) => PcOnly(s, t, DeqLoad);
      case Go(t, lucky) => ActInv(s, t, lucky);
      case Collect(t) => PcOnly(s, t, Idle);
    }
  }

  ghost predicate Legal<T>(s: State<T>, run: seq<Event<T>>)
    decreases |run|
  {
    run == [] || (Possible(s, run[0]) && Legal(Do(s, run[0]), run[1..]))
  }

  ghost function After<T>(s: State<T>, run: seq<Event<T>>): State<T>
    requires Legal(s, run)
    decreases |run|
  {
    if run == [] then s else After(Do(s, run[0]), run[1..])
  }

  lemma {:induction false} RunInv<T>(s: State<T>, run: seq<Event<T>>)
    requires Inv(s) && Legal(s, run)
    ensures Inv(After(s, run))
    decreases |run|
  {
    hide Inv, Do;
    if run != [] {
      DoInv(s, run[0]);
      RunInv(Do(s, run[0]), run[1..]);
    }
  }

  /** Whether a thread's next action touches the data of a slot. */
  predicate TouchesData<T>(pc: Pc<T>) {
    pc.EnqWrite? || pc.DeqRead?
  }

  /** In every interleaving: the counters stay within one lap of each other, and no two threads
      are about to touch the data of the same slot. */
  lemma CountersAndSlots<T>(n: nat, blank: T, tids: set<Tid>, run: seq<Event<T>>)
    requires n >= 2 && Legal(Init(n, blank, tids), run)
    ensures var s := After(Init(n, blank, tids), run);
            && s.n == n && 0 <= s.head - s.tail <= n
            && forall t, u :: t in s.threads && u in s.threads && t != u
                              && TouchesData(s.threads[t]) && TouchesData(s.threads[u]) ==>
                 Cell(s.threads[t].pos, n) != Cell(s.threads[u].pos, n)
  {
    hide Cell, Do;
    InitInv(n, blank, tids);
    RunInv(Init(n, blank, tids), run);
    SameSize(Init(n, blank, tids), run);
    var s := After(Init(n, blank, tids), run);
    Bounded(s);
    forall t, u | t in s.threads && u in s.threads && t != u && TouchesData(s.threads[t]) && TouchesData(s.threads[u])
      ensures Cell(s.threads[t].pos, n) != Cell(s.threads[u].pos, n)
    {
      TouchersDiffer(s, t, u);
    }
  }

  lemma {:induction false} SameSize<T>(s: State<T>, run: seq<Event<T>>)
    requires Legal(s, run)
    ensures After(s, run).n == s.n
    decreases |run|
  {
    if run != [] {
      SameSize(Do(s, run[0]), run[1..]);
    }
  }

  lemma TouchersDiffer<T>(s: State<T>, t: Tid, u: Tid)
    requires Inv(s) && t in s.threads && u in s.threads && t != u
    requires TouchesData(s.threads[t]) && TouchesData(s.threads[u])
    ensures Cell(s.threads[t].pos, s.n) != Cell(s.threads[u].pos, s.n)
  {
    hide Cell, SlotShows, DeliveriesOk;
    assert ThreadOk(s, t) && ThreadOk(s, u);
    var p, q := s.threads[t].pos, s.threads[u].pos;
    assert TicketOk(s, p) && TicketOk(s, q);
    OtherSlot(s, p, q);
  }

  /** In every interleaving, what dequeue has returned is exactly the released tickets, each
      returned once and with the value its producer passed to enqueue. */
  lemma DeliveredExactlyOnce<T>(n: nat, blank: T, tids: set<Tid>, run: seq<Event<T>>)
    requires n >= 2 && Legal(Init(n, blank, tids), run)
    ensures var s := After(Init(n, blank, tids), run);
            && s.tail <= s.head == |s.tickets|
            && (forall i, j :: 0 <= i < j < |s.deliveries| ==> s.deliveries[i].pos != s.deliveries[j].pos)
            && (forall i :: 0 <= i < |s.deliveries| ==>
                  s.deliveries[i].pos < s.tail && s.deliveries[i].value == s.tickets[s.deliveries[i].pos].value)
            && (forall pos :: 0 <= pos < s.head ==>
                  (s.tickets[pos].phase == Released <==> exists i :: 0 <= i < |s.deliveries| && s.deliveries[i].pos == pos))
  {
    hide Cell, Do, SlotShows, Worked;
    InitInv(n, blank, tids);
    RunInv(Init(n, blank, tids), run);
    var s := After(Init(n, blank, tids), run);
    forall i | 0 <= i < |s.deliveries|
      ensures s.deliveries[i].pos < s.tail && s.deliveries[i].value == s.tickets[s.deliveries[i].pos].value
      ensures s.tickets[s.deliveries[i].pos].phase == Released
    {
      assert DeliveryOk(s, s.deliveries[i]) && TicketOk(s, s.deliveries[i].pos);
    }
    forall pos | 0 <= pos < s.head && s.tickets[pos].phase == Released
      ensures exists i :: 0 <= i < |s.deliveries| && s.deliveries[i].pos == pos
    {
      assert Delivered(s, pos);
    }
  }

  /** enqueue gives up exactly while the ticket one lap earlier has not been released, and
      dequeue exactly while the ticket it looks at has not been published. */
  lemma RefusesOnlyWhenFull<T>(s: State<T>, t: Tid, lucky: bool)
    requires Inv(s) && t in s.threads
    ensures s.threads[t].EnqSeq? ==>
              var pos := s.threads[t].pos;
              Act(s, t, lucky).threads[t] == EnqDone(false) <==>
                s.n <= pos <= s.head && s.tickets[pos - s.n].phase != Released
    ensures s.threads[t].DeqSeq? ==>
              var pos := s.threads[t].pos;
              Act(s, t, lucky).threads[t] == DeqDone(None) <==>
                pos == s.head || (pos < s.head && s.tickets[pos].phase in {Claimed, Stored})
  {
    hide TicketsOk, FreshOk, DeliveriesOk, Cell;
    assert ThreadOk(s, t);
    if s.threads[t].EnqSeq? {
      EnqSees(s, s.threads[t].pos);
    } else if s.threads[t].DeqSeq? {
      DeqSees(s, s.threads[t].pos);
    }
  }

  // ---------------------------------------------------------------------------------------
  // A bounded first-in first-out queue

  function Values<T>(tickets: seq<Ticket<T>>): seq<T> {
    seq(|tickets|, i requires 0 <= i < |tickets| => tickets[i].value)
  }

  /** The abstract queue: claimed and not yet taken. */
  function Queue<T>(s: State<T>): seq<T>
    requires Shape(s)
  {
    Values(s.tickets)[s.tail..]
  }

  /** The action hands out a ticket. */
  predicate Claims<T>(s: State<T>, t: Tid, lucky: bool)
    requires t in s.threads
  {
    lucky && s.threads[t].EnqCas? && s.threads[t].pos == s.head
  }

  /** The action takes the oldest ticket. */
  predicate Takes<T>(s: State<T>, t: Tid, lucky: bool)
    requires t in s.threads
  {
    lucky && s.threads[t].DeqCas? && s.threads[t].pos == s.tail
  }

  /** What an action changes besides slots and phases. */
  lemma ActFrame<T>(s: State<T>, t: Tid, lucky: bool)
    requires Inv(s) && t in s.threads
    ensures var s' := Act(s, t, lucky);
            && t in s'.threads && s'.threads == s.threads[t := s'.threads[t]]
            && s'.tail == (if Takes(s, t, lucky) then s.tail + 1 else s.tail)
            && (if Claims(s, t, lucky) then Values(s'.tickets) == Values(s.tickets) + [s.threads[t].item]
                else Values(s'.tickets) == Values(s.tickets))
  {
    hide Cell, SlotShows, DeliveriesOk, FreshOk, TicketsOk, Values;
    assert ThreadOk(s, t);
    match s.threads[t] {
      case EnqCas(v, _) => ValuesAppend(s.tickets, Ticket(v, Claimed, t, t));
      case EnqWrite(_, pos) => ValuesMark(s.tickets, pos, Stored, t);
      case EnqPublish(pos) => ValuesMark(s.tickets, pos, Published, t);
      case DeqCas(pos) => ValuesMark(s.tickets, pos, Taken, t);
      case DeqRead(pos) => ValuesMark(s.tickets, pos, Moved, t);
      case DeqRelease(pos, _) => ValuesMark(s.tickets, pos, Released, t);
      case _ =>
    }
  }

  lemma ValuesAppend<T>(tickets: seq<Ticket<T>>, k: Ticket<T>)
    ensures Values(tickets + [k]) == Values(tickets) + [k.value]
  {
  }

  lemma ValuesMark<T>(tickets: seq<Ticket<T>>, pos: nat, phase: Phase, t: Tid)
    ensures Values(Mark(tickets, pos, phase)) == Values(tickets) == Values(Take(tickets, pos, t))
  {
  }

  /** Each step of the protocol does nothing to the queue, appends the value of a successful
      enqueue to one that is not full, or removes its first value, which is the one the taking
      thread then returns. */
  lemma RefinesFifo<T>(s: State<T>, e: Event<T>)
    requires Inv(s) && Possible(s, e)
    ensures Shape(Do(s, e))
    ensures var q, q', pc := Queue(s), Queue(Do(s, e)), s.threads[e.t];
            if e.Go? && Claims(s, e.t, e.lucky) then |q| < s.n && q' == q + [pc.item]
            else if e.Go? && Takes(s, e.t, e.lucky) then
              q != [] && q' == q[1..] && Do(s, e).threads[e.t] == DeqRead(pc.pos) && s.tickets[pc.pos].value == q[0]
            else q' == q
  {
    hide Cell, SlotShows, DeliveriesOk, FreshOk, Worked, TicketsOk, Act;
    DoInv(s, e);
    if e.Go? {
      ActFrame(s, e.t, e.lucky);
      assert ThreadOk(s, e.t);
      if Claims(s, e.t, e.lucky) {
        EnqRoom(s, e.t);
      } else if Takes(s, e.t, e.lucky) {
        TakerReads(s, e.t);
      }
    }
  }

  lemma EnqRoom<T>(s: State<T>, t: Tid)
    requires Inv(s) && t in s.threads && s.threads[t].EnqCas? && s.threads[t].pos == s.head
    ensures s.head < s.tail + s.n
  {
    hide Cell, SlotShows, DeliveriesOk, FreshOk, Worked;
    assert ThreadOk(s, t);
    assert s.head >= s.n ==> TicketOk(s, s.head - s.n);
  }

  lemma TakerReads<T>(s: State<T>, t: Tid)
    requires Shape(s) && t in s.threads && Takes(s, t, true)
    ensures Act(s, t, true).threads[t] == DeqRead(s.tail)
  {
  }

  /** A dequeue that took ticket `pos` returns its value, whatever happens in between. */
  lemma TakerReturnsTicket<T>(s: State<T>, t: Tid)
    requires Inv(s) && t in s.threads && s.threads[t].DeqRelease?
    ensures s.threads[t].pos < s.head && s.threads[t].got == s.tickets[s.threads[t].pos].value
    ensures Act(s, t, true).threads[t] == DeqDone(Some(s.tickets[s.threads[t].pos].value))
  {
    assert ThreadOk(s, t);
  }
}
