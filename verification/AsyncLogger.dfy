/**
 The asynchronous logger: any number of producer threads put messages into the bounded queue,
 one worker thread takes them out and writes them. A message that finds the queue full is
 counted, and the worker reports the count.

 A step is one atomic action: a load or store of a flag, one action inside the queue, the
 addition to or the exchange of the drop counter, one write to the delegate. The semaphore only
 decides how long the worker sleeps, so a parked worker may go on at any moment.

 `calls` and `fates` are bookkeeping: what was logged, in call order, and what became of it.
 */
module AsyncLogger {
  import opened Wrappers
  import opened Mpmc

  const MAX_TEXT: nat := 1023

  datatype Entry = Entry(error: bool, text: string)

  /** A queued message; `call` numbers the log calls. */
  datatype Item = Item(call: nat, entry: Entry)

  datatype Line = Message(item: Item) | Report(count: nat)

  datatype Producer = Away | Checking(item: Item) | Queueing(item: Item) | Counting(item: Item)

  datatype Worker =
    | Loop
    | Waiting
    | Asking
    | Parked
    | AskingAgain
    | LastTry
    | Writing(item: Item)
    | Reporting
    | Draining
    | DrainWriting(item: Item)
    | LastReport
    | Exited

  datatype Fate = InHand(t: Tid) | Accepted(pos: nat) | Lost

  datatype Logger = Logger(
    q: State<Item>,
    producers: map<Tid, Producer>,
    me: Tid,
    worker: Worker,
    running: bool,
    shutdown: bool,
    dropped: nat,
    out: seq<Line>,
    calls: seq<Entry>,
    fates: seq<Fate>)

  /** LogMessage's constructor keeps what fits its buffer. */
  function Kept(e: Entry): Entry {
    Entry(e.error, if |e.text| <= MAX_TEXT then e.text else e.text[..MAX_TEXT])
  }

  function Start(n: nat, tids: set<Tid>, me: Tid): Logger {
    Logger(Init(n, Item(0, Entry(false, "")), tids + {me}), map t | t in tids :: Away, me, Loop, true, false, 0, [], [], [])
  }

  // ---------------------------------------------------------------------------------------
  // Producers

  /** A thread calls logMessage or logError. */
  function Log(s: Logger, t: Tid, e: Entry): Logger {
    s.(producers := s.producers[t := Checking(Item(|s.calls|, Kept(e)))],
       calls := s.calls + [e], fates := s.fates + [InHand(t)])
  }

  function ProducerAct(s: Logger, t: Tid, lucky: bool): Logger
    requires t in s.producers && t in s.q.threads && Shape(s.q)
  {
    match s.producers[t]
    case Away => s
    case Checking(item) =>
      if s.running then s.(producers := s.producers[t := Queueing(item)], q := SetPc(s.q, t, EnqLoad(item)))
      else s.(producers := s.producers[t := Away])
    case Queueing(item) =>
      if s.q.threads[t].EnqDone? then
        s.(producers := s.producers[t := if s.q.threads[t].ok then Away else Counting(item)], q := SetPc(s.q, t, Idle))
      else
        s.(q := Act(s.q, t, lucky),
           fates := if Claims(s.q, t, lucky) && item.call < |s.fates| then s.fates[item.call := Accepted(s.q.head)] else s.fates)
    case Counting(item) =>
      s.(producers := s.producers[t := Away], dropped := s.dropped + 1,
         fates := if item.call < |s.fates| then s.fates[item.call := Lost] else s.fates)
  }

  // ---------------------------------------------------------------------------------------
  // The worker

  function BeginDequeue(s: Logger, w: Worker): Logger {
    s.(worker := w, q := SetPc(s.q, s.me, DeqLoad))
  }

  /** One action inside the queue, or, when it has returned, what the worker does next. */
  function InQueue(s: Logger, lucky: bool, got: Item -> Worker, empty: Worker): Logger
    requires s.me in s.q.threads && Shape(s.q)
  {
    match s.q.threads[s.me]
    case DeqDone(Some(item)) => s.(worker := got(item), q := SetPc(s.q, s.me, Idle))
    case DeqDone(None) =>
      if empty == Draining then BeginDequeue(s, Draining) else s.(worker := empty, q := SetPc(s.q, s.me, Idle))
    case _ => s.(q := Act(s.q, s.me, lucky))
  }

  function ReportDrops(s: Logger, w: Worker): Logger {
    s.(worker := w, dropped := 0, out := if s.dropped > 0 then s.out + [Report(s.dropped)] else s.out)
  }

  function WorkerAct(s: Logger, lucky: bool): Logger
    requires s.me in s.q.threads && Shape(s.q)
  {
    match s.worker
    case Loop => BeginDequeue(s, if s.running then Waiting else Draining)
    case Waiting => InQueue(s, lucky, item => Writing(item), Asking)
    case Asking => if s.shutdown then BeginDequeue(s, Draining) else s.(worker := Parked)
    case Parked => s.(worker := AskingAgain)
    case AskingAgain => BeginDequeue(s, if s.shutdown then LastTry else Waiting)
    case LastTry => InQueue(s, lucky, item => Writing(item), Draining)
    case Writing(item) => s.(worker := Reporting, out := s.out + [Message(item)])
    case Reporting => ReportDrops(s, Loop)
    case Draining => InQueue(s, lucky, item => DrainWriting(item), LastReport)
    case DrainWriting(item) => BeginDequeue(s, Draining).(out := s.out + [Message(item)])
    case LastReport => ReportDrops(s, Exited)
    case Exited => s
  }

  // ---------------------------------------------------------------------------------------
  // Runs

  datatype Event =
    | LogCall(t: Tid, entry: Entry)
    | Produce(t: Tid, lucky: bool)
    | Work(lucky: bool)
    | StopRunning
    | ShutDown

  /** The destructor runs after the producers have finished, and nobody logs after it has begun. */
  ghost predicate Possible(s: Logger, e: Event) {
    && Shape(s.q)
    && match e
       case LogCall(t, _) => t in s.producers && s.producers[t] == Away && s.running
       case Produce(t, _) => t in s.producers && t in s.q.threads
       case Work(_) => s.me in s.q.threads
       case StopRunning => s.running && AllAway(s)
       case ShutDown => !s.running
  }

  ghost predicate AllAway(s: Logger) {
    forall t :: t in s.producers ==> s.producers[t] == Away
  }

  function Do(s: Logger, e: Event): Logger
    requires Possible(s, e)
  {
    match e
    case LogCall(t, entry) => Log(s, t, entry)
    case Produce(t, lucky) => ProducerAct(s, t, lucky)
    case Work(lucky) => WorkerAct(s, lucky)
    case StopRunning => s.(running := false)
    case ShutDown => s.(shutdown := true)
  }

  // ---------------------------------------------------------------------------------------
  // The invariant

  function Messages(out: seq<Line>): seq<Item> {
    if out == [] then [] else
      Messages(out[..|out| - 1]) + (match out[|out| - 1] case Message(item) => [item] case Report(_) => [])
  }

  function Reported(out: seq<Line>): nat {
    if out == [] then 0 else
      Reported(out[..|out| - 1]) + (match out[|out| - 1] case Message(_) => 0 case Report(n) => n)
  }

  /** How many messages were lost, or how many were accepted by the queue. */
  function Tally(fates: seq<Fate>, lost: bool): nat {
    if fates == [] then 0 else Tally(fates[..|fates| - 1], lost) + One(fates[|fates| - 1], lost)
  }

  function One(f: Fate, lost: bool): nat {
    if (if lost then f.Lost? else f.Accepted?) then 1 else 0
  }

  /** The message a producer has not yet handed over or counted. */
  function Unplaced(p: Producer, pc: Pc<Item>): Option<Item> {
    match p
    case Away => None
    case Queueing(item) => if pc.EnqWrite? || pc.EnqPublish? || pc == EnqDone(true) then None else Some(item)
    case Checking(item) => Some(item)
    case Counting(item) => Some(item)
  }

  ghost predicate ProducerOk(s: Logger, t: Tid)
    requires t in s.producers
  {
    && t in s.q.threads && t != s.me
    && var p, pc := s.producers[t], s.q.threads[t];
       && (if p.Queueing? then !pc.Idle? && !pc.DeqLoad? && !pc.DeqSeq? && !pc.DeqCas? && !pc.DeqRead? && !pc.DeqRelease? && !pc.DeqDone?
           else pc.Idle?)
       && (pc.EnqLoad? || pc.EnqSeq? || pc.EnqCas? ==> p.Queueing? && pc.item == p.item)
       && (Unplaced(p, pc).Some? ==> Owns(s, t, Unplaced(p, pc).value))
  }

  ghost predicate Owns(s: Logger, t: Tid, item: Item) {
    && item.call < |s.calls| && item.call < |s.fates|
    && item.entry == Kept(s.calls[item.call]) && s.fates[item.call] == InHand(t)
  }

  ghost predicate FateOk(s: Logger, i: nat)
    requires i < |s.fates|
  {
    match s.fates[i]
    case InHand(t) =>
      t in s.producers && t in s.q.threads && Unplaced(s.producers[t], s.q.threads[t]).Some?
      && Unplaced(s.producers[t], s.q.threads[t]).value.call == i
    case Accepted(pos) => pos < |s.q.tickets| && s.q.tickets[pos].value.call == i
    case Lost => true
  }

  ghost predicate ItemOk(s: Logger, pos: nat)
    requires pos < |s.q.tickets|
  {
    var item := s.q.tickets[pos].value;
    && item.call < |s.calls| && item.call < |s.fates|
    && item.entry == Kept(s.calls[item.call]) && s.fates[item.call] == Accepted(pos)
  }

  /** The last ticket taken, and the message in it. */
  ghost predicate LastTaken(q: State<Item>, item: Item) {
    0 < q.tail <= |q.tickets| && q.tickets[q.tail - 1].value == item
  }

  /** The only consumer's view of the queue. */
  ghost predicate ConsumerOk(q: State<Item>, pc: Pc<Item>) {
    match pc
    case DeqLoad => true
    case DeqSeq(pos) => pos == q.tail
    case DeqCas(pos) => pos == q.tail
    case DeqRead(pos) => pos + 1 == q.tail
    case DeqRelease(pos, item) => pos + 1 == q.tail && LastTaken(q, item)
    case DeqDone(Some(item)) => LastTaken(q, item)
    case DeqDone(None) => true
    case _ => false
  }

  predicate InRing(w: Worker) {
    w.Waiting? || w.LastTry? || w.Draining?
  }

  /** The worker holds a message it has taken and not written. */
  predicate Holding(w: Worker, pc: Pc<Item>) {
    w.Writing? || w.DrainWriting? || pc.DeqRead? || pc.DeqRelease? || (pc.DeqDone? && pc.result.Some?)
  }

  ghost predicate WorkerOk(s: Logger) {
    && s.me in s.q.threads
    && var w, pc := s.worker, s.q.threads[s.me];
       && (if InRing(w) then ConsumerOk(s.q, pc) else pc.Idle?)
       && (w.Writing? || w.DrainWriting? ==> LastTaken(s.q, w.item))
       && (w.LastTry? || w.Draining? || w.DrainWriting? || w.LastReport? || w.Exited? ==> !s.running)
       && (w.LastReport? || w.Exited? || (w.Draining? && pc == DeqDone(None)) ==> s.q.tail == s.q.head)
       && (w.Exited? ==> s.dropped == 0)
  }

  /** How many tickets have been written out. */
  function Written(s: Logger): int
    requires s.me in s.q.threads
  {
    if Holding(s.worker, s.q.threads[s.me]) then s.q.tail - 1 else s.q.tail
  }

  ghost predicate FlowOk(s: Logger)
    requires s.me in s.q.threads
  {
    0 <= Written(s) <= |s.q.tickets| && Messages(s.out) == Values(s.q.tickets)[..Written(s)]
  }

  ghost predicate FlagsOk(s: Logger) {
    && (s.shutdown ==> !s.running) && (!s.running ==> AllAway(s))
    && |s.fates| == |s.calls| && Tally(s.fates, true) == s.dropped + Reported(s.out) && Tally(s.fates, false) == |s.q.tickets|
  }

  ghost predicate ProducersOk(s: Logger) {
    && (forall t :: t in s.producers ==> ProducerOk(s, t))
    && (forall t :: t in s.q.threads ==> t == s.me || t in s.producers)
  }

  ghost predicate FatesOk(s: Logger) {
    && (forall i :: 0 <= i < |s.fates| ==> FateOk(s, i))
    && (forall pos :: 0 <= pos < |s.q.tickets| ==> ItemOk(s, pos))
  }

  ghost predicate LogInv(s: Logger) {
    s.me in s.q.threads && Mpmc.Inv(s.q) && ProducersOk(s) && FatesOk(s) && WorkerOk(s) && FlowOk(s) && FlagsOk(s)
  }

  // ---------------------------------------------------------------------------------------
  // Every step keeps it

  lemma {:induction false} TallyUpdate(fates: seq<Fate>, i: nat, f: Fate, lost: bool)
    requires i < |fates|
    ensures Tally(fates[i := f], lost) == Tally(fates, lost) - One(fates[i], lost) + One(f, lost)
    decreases |fates|
  {
    var n := |fates| - 1;
    if i < n {
      TallyUpdate(fates[..n], i, f, lost);
      assert fates[i := f][..n] == fates[..n][i := f];
    } else {
      assert fates[i := f][..n] == fates[..n];
    }
  }

  lemma TallyAppend(fates: seq<Fate>, f: Fate, lost: bool)
    ensures Tally(fates + [f], lost) == Tally(fates, lost) + One(f, lost)
  {
    assert (fates + [f])[..|fates|] == fates;
  }

  lemma {:induction false} TallyWhole(fates: seq<Fate>)
    requires forall i :: 0 <= i < |fates| ==> !fates[i].InHand?
    ensures Tally(fates, true) + Tally(fates, false) == |fates|
    decreases |fates|
  {
    if fates != [] {
      TallyWhole(fates[..|fates| - 1]);
    }
  }

  lemma OutAppend(out: seq<Line>, line: Line)
    ensures Messages(out + [line]) == Messages(out) + (match line case Message(item) => [item] case Report(_) => [])
    ensures Reported(out + [line]) == Reported(out) + (match line case Message(_) => 0 case Report(n) => n)
  {
    assert (out + [line])[..|out|] == out;
  }

  lemma StartInv(n: nat, tids: set<Tid>, me: Tid)
    requires n >= 2 && me !in tids
    ensures LogInv(Start(n, tids, me))
  {
    hide Mpmc.Inv;
    Mpmc.InitInv(n, Item(0, Entry(false, "")), tids + {me});
  }

  lemma LogStep(s: Logger, t: Tid, e: Entry)
    requires LogInv(s) && t in s.producers && s.producers[t] == Away && s.running
    ensures LogInv(Log(s, t, e))
  {
    hide Mpmc.Inv, Tally, Messages, Values;
    var s' := Log(s, t, e);
    TallyAppend(s.fates, InHand(t), true);
    TallyAppend(s.fates, InHand(t), false);
    forall u | u in s'.producers ensures ProducerOk(s', u) {
      assert ProducerOk(s, u);
    }
    forall i | 0 <= i < |s'.fates| ensures FateOk(s', i) {
      assert ProducerOk(s, t);
      assert i < |s.fates| ==> FateOk(s, i);
    }
    forall pos | 0 <= pos < |s'.q.tickets| ensures ItemOk(s', pos) {
      assert ItemOk(s, pos);
    }
  }

  /** A producer moves between its own states without touching its message or the tickets. */
  lemma ProducerMoves(s: Logger, t: Tid, p: Producer, pc: Pc<Item>)
    requires LogInv(s) && t in s.producers && s.running
    requires s.q.threads[t].Idle? || s.q.threads[t].EnqDone?
    requires p.Queueing? ==> pc == EnqLoad(p.item)
    requires !p.Queueing? ==> pc == Idle
    requires Unplaced(p, pc) == Unplaced(s.producers[t], s.q.threads[t])
    ensures LogInv(s.(producers := s.producers[t := p], q := SetPc(s.q, t, pc)))
  {
    hide TicketsOk, ThreadsOk, FreshOk, DeliveriesOk, Tally, Messages, Values, WorkerOk, FlowOk;
    var s' := s.(producers := s.producers[t := p], q := SetPc(s.q, t, pc));
    assert ProducerOk(s, t);
    Mpmc.PcOnly(s.q, t, pc);
    WorkerUnmoved(s, s');
    forall u | u in s'.producers ensures ProducerOk(s', u) {
      assert ProducerOk(s, u);
    }
    forall i | 0 <= i < |s'.fates| ensures FateOk(s', i) {
      assert FateOk(s, i);
    }
    forall pos | 0 <= pos < |s'.q.tickets| ensures ItemOk(s', pos) {
      assert ItemOk(s, pos);
    }
  }

  lemma ValueAt(a: seq<Ticket<Item>>, b: seq<Ticket<Item>>, i: nat)
    requires Values(a) <= Values(b) && i < |a|
    ensures i < |b| && a[i].value == b[i].value
  {
    assert Values(a)[i] == Values(b)[i];
  }

  /** The worker does not notice what a producer does. */
  lemma WorkerUnmoved(s: Logger, s': Logger)
    requires WorkerOk(s) && FlowOk(s) && s.running && s'.running && s.q.tail <= |s.q.tickets|
    requires s'.me == s.me && s'.worker == s.worker && s'.out == s.out && s.me in s'.q.threads
    requires s'.q.threads[s.me] == s.q.threads[s.me] && s'.q.tail == s.q.tail
    requires Values(s.q.tickets) <= Values(s'.q.tickets) && s.q.head == |s.q.tickets|
    ensures WorkerOk(s') && FlowOk(s')
  {
    hide Messages, Values;
    if s.q.tail > 0 {
      ValueAt(s.q.tickets, s'.q.tickets, s.q.tail - 1);
    }
    ValuesSize(s.q.tickets);
    ValuesSize(s'.q.tickets);
  }

  lemma ValuesSize(a: seq<Ticket<Item>>)
    ensures |Values(a)| == |a|
  {
  }

  /** A producer's action inside the queue leaves it in enqueue, with the same message. */
  lemma EnqueueGoesOn(q: State<Item>, t: Tid, lucky: bool)
    requires Mpmc.Inv(q) && t in q.threads
    requires var pc := q.threads[t]; pc.EnqLoad? || pc.EnqSeq? || pc.EnqCas? || pc.EnqWrite? || pc.EnqPublish?
    ensures Act(q, t, lucky).tail == q.tail && t in Act(q, t, lucky).threads
    ensures var pc, pc' := q.threads[t], Act(q, t, lucky).threads[t];
            if Claims(q, t, lucky) then pc' == EnqWrite(pc.item, q.head)
            else if pc.EnqWrite? || pc.EnqPublish? then pc'.EnqPublish? || pc' == EnqDone(true)
            else pc' == EnqDone(false) || ((pc'.EnqLoad? || pc'.EnqSeq? || pc'.EnqCas?) && pc'.item == pc.item)
  {
  }

  lemma ProducerInQueue(s: Logger, t: Tid, lucky: bool)
    requires LogInv(s) && t in s.producers && s.producers[t].Queueing? && !s.q.threads[t].EnqDone?
    ensures LogInv(ProducerAct(s, t, lucky))
  {
    hide TicketsOk, ThreadsOk, FreshOk, DeliveriesOk, Tally, Messages, Values, WorkerOk, FlowOk, Act;
    var s', item := ProducerAct(s, t, lucky), s.producers[t].item;
    assert ProducerOk(s, t) && s.running;
    Mpmc.ActInv(s.q, t, lucky);
    Mpmc.ActFrame(s.q, t, lucky);
    EnqueueGoesOn(s.q, t, lucky);
    if Claims(s.q, t, lucky) {
      TallyUpdate(s.fates, item.call, Accepted(s.q.head), true);
      TallyUpdate(s.fates, item.call, Accepted(s.q.head), false);
    }
    ValuesSize(s.q.tickets);
    ValuesSize(s'.q.tickets);
    WorkerUnmoved(s, s');
    OthersKeep(s, s', t, item);
    TicketsKeep(s, s', t, item, lucky);
  }

  lemma OthersKeep(s: Logger, s': Logger, t: Tid, item: Item)
    requires ProducersOk(s) && t in s.producers && s'.producers == s.producers && s'.me == s.me && s'.calls == s.calls
    requires t in s'.q.threads && s'.q.threads == s.q.threads[t := s'.q.threads[t]]
    requires |s'.fates| == |s.fates| && (forall i :: 0 <= i < |s.fates| && s'.fates[i] != s.fates[i] ==> i == item.call && s.fates[i] == InHand(t))
    requires ProducerOk(s', t)
    ensures ProducersOk(s')
  {
    forall u | u in s'.producers && u != t ensures ProducerOk(s', u) {
      assert ProducerOk(s, u);
    }
  }

  lemma TicketsKeep(s: Logger, s': Logger, t: Tid, item: Item, lucky: bool)
    requires Mpmc.Inv(s.q) && FatesOk(s) && t in s.producers && s.producers[t] == Queueing(item) && ProducerOk(s, t) && t in s.q.threads
    requires s' == ProducerAct(s, t, lucky) && !s.q.threads[t].EnqDone?
    ensures FatesOk(s')
  {
    hide TicketsOk, ThreadsOk, FreshOk, DeliveriesOk, Act, Values;
    Mpmc.ActFrame(s.q, t, lucky);
    EnqueueGoesOn(s.q, t, lucky);
    ValuesSize(s.q.tickets);
    ValuesSize(s'.q.tickets);
    var n := |s.q.tickets|;
    assert Values(s.q.tickets) <= Values(s'.q.tickets);
    forall pos | 0 <= pos < |s'.q.tickets| ensures ItemOk(s', pos) {
      if pos < n {
        assert ItemOk(s, pos);
        ValueAt(s.q.tickets, s'.q.tickets, pos);
      } else {
        LastValue(s.q.tickets, s'.q.tickets, item);
      }
    }
    forall i | 0 <= i < |s'.fates| ensures FateOk(s', i) {
      assert FateOk(s, i);
      if s.fates[i].Accepted? {
        ValueAt(s.q.tickets, s'.q.tickets, s.fates[i].pos);
      }
      if s'.fates[i] != s.fates[i] {
        LastValue(s.q.tickets, s'.q.tickets, item);
      }
    }
  }

  lemma LastValue(a: seq<Ticket<Item>>, b: seq<Ticket<Item>>, item: Item)
    requires Values(b) == Values(a) + [item]
    ensures |b| == |a| + 1 && b[|a|].value == item
  {
    assert Values(b)[|a|] == item;
  }

  /** The message found the queue full and is counted. */
  lemma CountingStep(s: Logger, t: Tid)
    requires LogInv(s) && t in s.producers && s.producers[t].Counting?
    ensures LogInv(ProducerAct(s, t, true))
  {
    hide TicketsOk, ThreadsOk, FreshOk, DeliveriesOk, Tally, Messages, Values, ConsumerOk;
    var s', item := ProducerAct(s, t, true), s.producers[t].item;
    assert ProducerOk(s, t) && s.running;
    TallyUpdate(s.fates, item.call, Lost, true);
    TallyUpdate(s.fates, item.call, Lost, false);
    forall u | u in s'.producers ensures ProducerOk(s', u) {
      assert ProducerOk(s, u);
    }
    forall i | 0 <= i < |s'.fates| ensures FateOk(s', i) {
      assert FateOk(s, i);
    }
    forall pos | 0 <= pos < |s'.q.tickets| ensures ItemOk(s', pos) {
      assert ItemOk(s, pos);
    }
  }

  lemma ProducerStep(s: Logger, t: Tid, lucky: bool)
    requires LogInv(s) && t in s.producers && t in s.q.threads
    ensures LogInv(ProducerAct(s, t, lucky))
  {
    hide Mpmc.Inv, FatesOk, WorkerOk, FlowOk, Tally;
    assert ProducerOk(s, t);
    match s.producers[t] {
      case Away =>
      case Checking(item) => ProducerMoves(s, t, Queueing(item), EnqLoad(item));
      case Queueing(item) =>
        if s.q.threads[t].EnqDone? {
          ProducerMoves(s, t, if s.q.threads[t].ok then Away else Counting(item), Idle);
        } else {
          ProducerInQueue(s, t, lucky);
        }
      case Counting(item) => CountingStep(s, t);
    }
  }

  /** The worker moves, and what it has taken and written stays in step with the queue. */
  lemma WorkerMoves(s: Logger, s': Logger)
    requires LogInv(s) && Mpmc.Inv(s'.q) && s.me in s'.q.threads
    requires s' == s.(q := s'.q, worker := s'.worker, out := s'.out, dropped := s'.dropped)
    requires s'.q.threads == s.q.threads[s.me := s'.q.threads[s.me]] && Values(s'.q.tickets) == Values(s.q.tickets)
    requires WorkerOk(s') && FlowOk(s') && s'.dropped + Reported(s'.out) == s.dropped + Reported(s.out)
    ensures LogInv(s')
  {
    hide TicketsOk, ThreadsOk, FreshOk, DeliveriesOk, Tally, Messages, Reported, Values, WorkerOk, FlowOk;
    forall u | u in s'.producers ensures ProducerOk(s', u) {
      assert ProducerOk(s, u);
    }
    ValuesSize(s.q.tickets);
    ValuesSize(s'.q.tickets);
    forall pos | 0 <= pos < |s'.q.tickets| ensures ItemOk(s', pos) {
      assert ItemOk(s, pos);
      ValueAt(s.q.tickets, s'.q.tickets, pos);
    }
    forall i | 0 <= i < |s'.fates| ensures FateOk(s', i) {
      assert FateOk(s, i);
      if s.fates[i].Accepted? {
        ValueAt(s.q.tickets, s'.q.tickets, s.fates[i].pos);
      }
    }
  }

  /** The worker's own action inside the queue. */
  lemma DequeueGoesOn(s: Logger, lucky: bool)
    requires LogInv(s) && InRing(s.worker) && !s.q.threads[s.me].DeqDone?
    ensures LogInv(s.(q := Act(s.q, s.me, lucky)))
  {
    hide TicketsOk, ThreadsOk, FreshOk, DeliveriesOk, Tally, Messages, Reported, Act, ProducersOk, FatesOk;
    var s' := s.(q := Act(s.q, s.me, lucky));
    Mpmc.ActInv(s.q, s.me, lucky);
    Mpmc.ActFrame(s.q, s.me, lucky);
    ConsumerSteps(s.q, s.me, lucky);
    if s.worker.Draining? && s'.q.threads[s.me] == DeqDone(None) {
      NothingPending(s);
      EmptyMeansEmpty(s.q, s.me, lucky);
    }
    WorkerMoves(s, s');
  }

  /** How the only consumer's view changes. */
  lemma ConsumerSteps(q: State<Item>, t: Tid, lucky: bool)
    requires Mpmc.Inv(q) && t in q.threads && ConsumerOk(q, q.threads[t]) && !q.threads[t].DeqDone?
    ensures var q' := Act(q, t, lucky);
            && t in q'.threads && ConsumerOk(q', q'.threads[t]) && !q'.threads[t].Idle?
            && q'.head == q.head
            && (q'.threads[t] == DeqDone(None) ==> q.threads[t].DeqSeq? && q' == SetPc(q, t, DeqDone(None)))
            && q'.tail == (if Takes(q, t, lucky) then q.tail + 1 else q.tail)
            && (q'.threads[t].DeqRead? || q'.threads[t].DeqRelease? || (q'.threads[t].DeqDone? && q'.threads[t].result.Some?) <==>
                  Takes(q, t, lucky) || q.threads[t].DeqRead? || q.threads[t].DeqRelease?)
  {
    hide FreshOk, DeliveriesOk, TicketsOk;
    assert ThreadOk(q, t);
    if q.threads[t].DeqRead? {
      TakenValue(q, q.threads[t].pos);
    }
  }

  lemma TakenValue(q: State<Item>, pos: nat)
    requires Mpmc.Inv(q) && pos < q.head && q.tickets[pos].phase == Taken
    ensures q.slots[Cell(pos, q.n)].data == q.tickets[pos].value
  {
    assert TicketOk(q, pos);
  }

  /** Once the logger is closing no producer is inside the queue. */
  lemma NothingPending(s: Logger)
    requires LogInv(s) && !s.running
    ensures forall t :: t in s.q.threads ==> t == s.me || s.q.threads[t].Idle?
  {
    hide Mpmc.Inv, FatesOk, WorkerOk, FlowOk, Tally;
    forall t | t in s.q.threads && t != s.me ensures s.q.threads[t].Idle? {
      assert ProducerOk(s, t);
    }
  }

  /** With nobody else in the queue, a dequeue that finds nothing has found it empty. */
  lemma EmptyMeansEmpty(q: State<Item>, me: Tid, lucky: bool)
    requires Mpmc.Inv(q) && me in q.threads && q.threads[me] == DeqSeq(q.tail)
    requires Act(q, me, lucky).threads[me] == DeqDone(None)
    requires forall t :: t in q.threads ==> t == me || q.threads[t].Idle?
    ensures q.tail == q.head
  {
    hide Mpmc.Inv, Act;
    AllPublished(q, me);
    Mpmc.RefusesOnlyWhenFull(q, me, lucky);
  }

  lemma AllPublished(q: State<Item>, me: Tid)
    requires Mpmc.Inv(q) && me in q.threads && q.threads[me].DeqSeq?
    requires forall t :: t in q.threads ==> t == me || q.threads[t].Idle?
    ensures forall pos :: 0 <= pos < |q.tickets| ==> q.tickets[pos].phase !in {Claimed, Stored}
    ensures q.head == |q.tickets|
  {
    hide Cell, SlotShows, FreshOk, DeliveriesOk, ThreadsOk;
    forall pos | 0 <= pos < |q.tickets| ensures q.tickets[pos].phase !in {Claimed, Stored} {
      assert TicketOk(q, pos);
    }
  }

  /** The worker goes from one place to another outside the queue's own actions. */
  lemma WorkerTurns(s: Logger, w: Worker, pc: Pc<Item>, out: seq<Line>, dropped: nat)
    requires LogInv(s) && (s.q.threads[s.me].Idle? || s.q.threads[s.me].DeqDone?) && (pc == Idle || pc == DeqLoad)
    requires var s' := s.(q := SetPc(s.q, s.me, pc), worker := w, out := out, dropped := dropped);
             WorkerOk(s') && FlowOk(s') && dropped + Reported(out) == s.dropped + Reported(s.out)
    ensures LogInv(s.(q := SetPc(s.q, s.me, pc), worker := w, out := out, dropped := dropped))
  {
    hide TicketsOk, FreshOk, DeliveriesOk, Tally, Messages, Reported, ProducersOk, FatesOk, WorkerOk, FlowOk, Values;
    Mpmc.PcOnly(s.q, s.me, pc);
    WorkerMoves(s, s.(q := SetPc(s.q, s.me, pc), worker := w, out := out, dropped := dropped));
  }

  /** The queue operation has returned. */
  lemma RingReturns(s: Logger, lucky: bool)
    requires LogInv(s) && InRing(s.worker) && s.q.threads[s.me].DeqDone?
    ensures LogInv(WorkerAct(s, lucky))
  {
    hide TicketsOk, ThreadsOk, FreshOk, DeliveriesOk, Tally, Messages, Reported, ProducersOk, FatesOk, Act, Values;
    var s' := WorkerAct(s, lucky);
    WorkerTurns(s, s'.worker, s'.q.threads[s.me], s.out, s.dropped);
  }

  lemma RingStep(s: Logger, lucky: bool)
    requires LogInv(s) && InRing(s.worker)
    ensures LogInv(WorkerAct(s, lucky))
  {
    hide TicketsOk, ThreadsOk, FreshOk, DeliveriesOk, FlagsOk, FlowOk, ProducersOk, FatesOk, Act, Values;
    if !s.q.threads[s.me].DeqDone? {
      DequeueGoesOn(s, lucky);
    } else {
      RingReturns(s, lucky);
    }
  }

  lemma WritingStep(s: Logger, lucky: bool)
    requires LogInv(s) && (s.worker.Writing? || s.worker.DrainWriting?)
    ensures LogInv(WorkerAct(s, lucky))
  {
    hide TicketsOk, ThreadsOk, FreshOk, DeliveriesOk, Tally, Messages, Reported, ProducersOk, FatesOk, Act;
    var s' := WorkerAct(s, lucky);
    OutAppend(s.out, Message(s.worker.item));
    assert Values(s.q.tickets)[..s.q.tail] == Values(s.q.tickets)[..s.q.tail - 1] + [Values(s.q.tickets)[s.q.tail - 1]];
    assert s.q.threads[s.me := Idle] == s.q.threads;
    WorkerTurns(s, s'.worker, s'.q.threads[s.me], s'.out, s.dropped);
  }

  lemma ReportingStep(s: Logger, lucky: bool)
    requires LogInv(s) && (s.worker.Reporting? || s.worker.LastReport?)
    ensures LogInv(WorkerAct(s, lucky))
  {
    hide TicketsOk, ThreadsOk, FreshOk, DeliveriesOk, Tally, Messages, Reported, ProducersOk, FatesOk, Act, Values;
    var s' := WorkerAct(s, lucky);
    OutAppend(s.out, Report(s.dropped));
    assert s.q.threads[s.me := Idle] == s.q.threads;
    WorkerTurns(s, s'.worker, Idle, s'.out, 0);
  }

  lemma WaitingStep(s: Logger, lucky: bool)
    requires LogInv(s) && (s.worker.Loop? || s.worker.Asking? || s.worker.Parked? || s.worker.AskingAgain?)
    ensures LogInv(WorkerAct(s, lucky))
  {
    hide TicketsOk, ThreadsOk, FreshOk, DeliveriesOk, Tally, Messages, Reported, ProducersOk, FatesOk, Act, Values;
    var s' := WorkerAct(s, lucky);
    assert s.q.threads[s.me := Idle] == s.q.threads;
    WorkerTurns(s, s'.worker, s'.q.threads[s.me], s.out, s.dropped);
  }

  lemma DoInv(s: Logger, e: Event)
    requires LogInv(s) && Possible(s, e)
    ensures LogInv(Do(s, e))
  {
    hide Mpmc.Inv, Tally, Messages, Reported, FlowOk, Act, Values;
    match e {
      case LogCall(t, entry) => LogStep(s, t, entry);
      case Produce(t, lucky) => ProducerStep(s, t, lucky);
      case Work(lucky) =>
        if InRing(s.worker) {
          RingStep(s, lucky);
        } else if s.worker.Writing? || s.worker.DrainWriting? {
          WritingStep(s, lucky);
        } else if s.worker.Reporting? || s.worker.LastReport? {
          ReportingStep(s, lucky);
        } else if !s.worker.Exited? {
          WaitingStep(s, lucky);
        }
      case StopRunning => FlagStep(s, false, s.shutdown);
      case ShutDown => FlagStep(s, s.running, true);
    }
  }

  /** The destructor sets its flags. */
  lemma FlagStep(s: Logger, running: bool, shutdown: bool)
    requires LogInv(s) && (running ==> s.running && !shutdown) && (!running ==> AllAway(s))
    ensures LogInv(s.(running := running, shutdown := shutdown))
  {
    hide Mpmc.Inv, Tally, Messages, Reported, Act, Values;
    var s' := s.(running := running, shutdown := shutdown);
    forall u | u in s'.producers ensures ProducerOk(s', u) {
      assert ProducerOk(s, u);
    }
    forall i | 0 <= i < |s'.fates| ensures FateOk(s', i) {
      assert FateOk(s, i);
    }
    forall pos | 0 <= pos < |s'.q.tickets| ensures ItemOk(s', pos) {
      assert ItemOk(s, pos);
    }
  }

  ghost predicate Legal(s: Logger, run: seq<Event>)
    decreases |run|
  {
    run == [] || (Possible(s, run[0]) && Legal(Do(s, run[0]), run[1..]))
  }

  ghost function After(s: Logger, run: seq<Event>): Logger
    requires Legal(s, run)
    decreases |run|
  {
    if run == [] then s else After(Do(s, run[0]), run[1..])
  }

  lemma {:induction false} RunInv(s: Logger, run: seq<Event>)
    requires LogInv(s) && Legal(s, run)
    ensures LogInv(After(s, run))
    decreases |run|
  {
    hide LogInv, Do;
    if run != [] {
      DoInv(s, run[0]);
      RunInv(Do(s, run[0]), run[1..]);
    }
  }

  /** Call `i` was written as line `pos` of the messages, and is what that line says. */
  ghost predicate WrittenAs(s: Logger, i: nat, pos: nat)
    requires i < |s.calls|
  {
    pos < |Messages(s.out)| && Messages(s.out)[pos] == Item(i, Kept(s.calls[i]))
  }

  lemma ExitedConserves(s: Logger)
    requires LogInv(s) && s.worker == Exited
    ensures |s.fates| == |s.calls| && Messages(s.out) == Values(s.q.tickets)
    ensures forall i :: 0 <= i < |s.calls| ==>
              s.fates[i].Lost? || (s.fates[i].Accepted? && WrittenAs(s, i, s.fates[i].pos))
    ensures forall pos :: 0 <= pos < |Messages(s.out)| ==>
              var i := Messages(s.out)[pos].call; i < |s.calls| && s.fates[i] == Accepted(pos)
    ensures Tally(s.fates, true) == Reported(s.out) && |s.calls| == |Messages(s.out)| + Reported(s.out)
  {
    hide TicketsOk, ThreadsOk, FreshOk, DeliveriesOk, Messages, Tally, Reported;
    ValuesSize(s.q.tickets);
    assert Messages(s.out) == Values(s.q.tickets);
    forall i | 0 <= i < |s.calls|
      ensures s.fates[i].Lost? || (s.fates[i].Accepted? && WrittenAs(s, i, s.fates[i].pos))
    {
      assert FateOk(s, i);
      if s.fates[i].Accepted? {
        assert ItemOk(s, s.fates[i].pos);
      }
    }
    forall pos | 0 <= pos < |Messages(s.out)|
      ensures var i := Messages(s.out)[pos].call; i < |s.calls| && s.fates[i] == Accepted(pos)
    {
      assert ItemOk(s, pos);
    }
    TallyWhole(s.fates);
  }

  /** Once the worker has exited, in every run: each logged message was written exactly once, in
      the order the queue accepted them, or was lost; the losses add up to what the drop reports
      say; and written plus reported equals logged. */
  lemma LoggerConserves(n: nat, tids: set<Tid>, me: Tid, run: seq<Event>)
    requires n >= 2 && me !in tids && Legal(Start(n, tids, me), run)
    requires After(Start(n, tids, me), run).worker == Exited
    ensures var s := After(Start(n, tids, me), run);
            && |s.fates| == |s.calls|
            && Messages(s.out) == Values(s.q.tickets)
            && (forall i :: 0 <= i < |s.calls| ==>
                  s.fates[i].Lost? || (s.fates[i].Accepted? && WrittenAs(s, i, s.fates[i].pos)))
            && (forall pos :: 0 <= pos < |Messages(s.out)| ==>
                  var i := Messages(s.out)[pos].call; i < |s.calls| && s.fates[i] == Accepted(pos))
            && Tally(s.fates, true) == Reported(s.out)
            && |s.calls| == |Messages(s.out)| + Reported(s.out)
  {
    hide Do, Messages, Tally, Reported, Legal, After, Start;
    StartInv(n, tids, me);
    RunInv(Start(n, tids, me), run);
    ExitedConserves(After(Start(n, tids, me), run));
  }
}
