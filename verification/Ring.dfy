/**
 One ring thread: the connection jobs, the jobs they submit, and the completion loop. Each
 method mirrors a method of the server and is one uninterrupted piece of the ring thread's
 work; allocation and submission-queue entries may fail at every request. Between two
 completions the kernel may do anything its contract allows.
 */
module Ring {
  import opened Wrappers
  import opened HttpTypes
  import opened RingState
  import opened RingLocality
  import opened RingSteps
  import opened RingHistory
  import RangeRequest
  import SpliceFile
  import Framing
  import Text

  function NewConn(fd: int): Conn {
    Conn(fd, -1, [], false, true, false, false, false, None, false, None, false, None)
  }

  /** Why a response is sent: it answers a request, or refuses bytes that are not one. */
  datatype Cause = Answer(req: HttpRequest) | Refusal(code: int)

  /** One completion: its result, whether the kernel will send more for the same operation, the
      bytes a receive delivered, and the submission entries the ring can give the handler of a
      splice. */
  datatype Cqe = Cqe(res: int, more: bool, data: string, grants: SpliceFile.Grants)

  /** What the kernel may report. Only a receive that delivered bytes has more to come, and no
      operation moves more bytes than it was asked to. */
  predicate KernelMay(job: Job, cqe: Cqe) {
    match job
    case Recv(_, _) => if cqe.res <= 0 then !cqe.more else |cqe.data| == cqe.res
    case Timer(_) => !cqe.more
    case Cancel(_) => !cqe.more
    case Write(_, data, written, _, _) => !cqe.more && cqe.res <= |data| - written
    case Splice(_, _, src, w, _) => !cqe.more && SpliceFile.KernelAllows(w, src.content, cqe.res)
    case _ => false
  }

  lemma Cut(sent: string, sent': string, part: string, rest: string)
    requires sent <= sent' <= part && sent + rest == part
    ensures rest == sent'[|sent|..] + part[|sent'|..] && sent' + part[|sent'|..] == part
  {
    assert rest == part[|sent|..];
  }

  class Ring {
    const app: App
    const idleTimeout: bool

    var conns: map<Slot, Conn>
    var gens: map<Slot, nat>
    var jobs: map<JobId, Job>
    var fds: map<int, Holder>
    var inFlight: int
    // What the last look at the shared server state said; another thread may change that state
    // at any moment.
    var stopping: bool

    // What the kernel holds, and what has happened.
    ghost var ops: multiset<JobId>
    ghost var duty: map<Slot, Duty>
    ghost var hist: map<Owner, Hist>
    // 1 while the last completion of an operation is being handled.
    ghost var handling: nat
    // How often a pool, the submission queue or the descriptor table had nothing to give.
    ghost var shortages: nat

    ghost function S(): State
      reads this
    {
      State(conns, gens, jobs, ops, fds, duty)
    }

    /** The invariant; `except` names the connection a handler is in the middle of changing. */
    ghost predicate Good(except: set<Slot>)
      reads this
    {
      && Inv(S(), except)
      && HistsOk(app, Proj(S()), hist, except)
      && inFlight == |ops| + handling
      && AppOk(app)
    }

    /** The invariant at connection `c`. */
    lemma Here(c: Slot, except: set<Slot>)
      requires Good(except)
      ensures c in conns ==> ConnOk(S(), c)
      ensures c in duty ==> DutyOk(S(), c)
      ensures c in conns && c !in except ==> Settled(S(), c)
    {
      hide Inv, HistsOk, AppOk, ConnOk, DutyOk, Settled;
      At(S(), c, except);
    }

    // -------------------------------------------------------------------------------------
    // Pools and the submission queue

    /** PoolManager::allocate: some free slot, or none when the pool is exhausted. */
    method AllocateJob() returns (r: Option<JobId>)
      modifies `shortages
      ensures S() == old(S()) && (forall x :: old(Good(x)) ==> Good(x))
      ensures r.Some? ==> r.value !in jobs
      ensures shortages == old(shortages) + (if r.None? then 1 else 0)
    {
      hide Inv, HistsOk, AppOk;
      r := *;
      if r.Some? && r.value in jobs {
        r := None;
      }
      if r.None? {
        shortages := shortages + 1;
      }
    }

    /** io_uring_get_sqe: fails when the submission queue is full. */
    method GetSqe() returns (ok: bool)
      modifies `shortages
      ensures S() == old(S()) && (forall x :: old(Good(x)) ==> Good(x))
      ensures shortages == old(shortages) + (if ok then 0 else 1)
    {
      hide Inv, HistsOk, AppOk;
      ok := *;
      if !ok {
        shortages := shortages + 1;
      }
    }

    /** Server::isStopping. */
    method IsStopping() returns (b: bool)
      modifies `stopping
      ensures S() == old(S()) && (forall x :: old(Good(x)) ==> Good(x)) && b == stopping
    {
      hide Inv, HistsOk, AppOk;
      stopping := *;
      b := stopping;
    }

    /** A new operation asks the kernel to cancel `target`. */
    ghost predicate Asked(before: map<JobId, Job>, after: map<JobId, Job>, target: JobId) {
      exists j :: j in after && j !in before && after[j] == Cancel(target)
    }

    /** Submits a cancel for `target`; fails when the pool or the queue is exhausted. */
    method SubmitCancel(target: JobId, ghost c: Slot) returns (ok: bool)
      requires Good({c})
      modifies `jobs, `ops, `inFlight, `shortages
      ensures Good({c}) && (old(Good({})) ==> Good({}))
      ensures Kept(old(S()), S(), c, {})
      ensures if ok then Asked(old(jobs), jobs, target) else S() == old(S()) && shortages > old(shortages)
      ensures shortages >= old(shortages)
    {
      hide Inv, HistsOk, AppOk, Kept;
      KeptSame(S(), c);
      var cancel := AllocateJob();
      if cancel.None? {
        return false;
      }
      ok := GetSqe();
      if !ok {
        return false;
      }
      ghost var s := S();
      AddArmed(s, cancel.value, Cancel(target), c);
      FreshJob(s, cancel.value, {c});
      KeptJob(s, cancel.value, Cancel(target), 1, c);
      jobs := jobs[cancel.value := Cancel(target)];
      ops := ops[cancel.value := 1];
      inFlight := inFlight + 1;
      return true;
    }

    // -------------------------------------------------------------------------------------
    // Closing

    /** Stores the fields of connection `c`. */
    method SetConn(c: Slot, k: Conn)
      requires Good({c}) && c in conns
      requires ConnOk(S().(conns := conns[c := k]), c)
      requires c in duty ==> k.inFlight && k.clientFd == conns[c].clientFd
      requires TheFd(k) == TheFd(conns[c]) && (k.clientFd >= 0 ==> conns[c].clientFd >= 0)
      requires k.clientFd >= 0 && k.read != conns[c].read ==>
                 conns[c].read.Some? && conns[c].read.value in jobs && jobs[conns[c].read.value].Busy?
      requires k.buffer == conns[c].buffer && ConnKept(conns[c], k)
      modifies `conns
      ensures conns == old(conns)[c := k] && Good({c})
      ensures Settled(S(), c) && (k.closePending || (old(Good({})) && k.closePending == old(conns[c].closePending))) ==> Good({})
      ensures Kept(old(S()), S(), c, {})
    {
      hide Inv, HistsOk, AppOk, ConnOk, Settled, Kept;
      UpdateConn(S(), c, k);
      KeptConn(S(), c, k);
      HistKeeps(app, Proj(S()), hist, c, k);
      conns := conns[c := k];
    }

    /** The end of closeConnection: close the socket, return the connection to its pool. */
    method Release(c: Slot)
      requires Good({c}) && c in conns && c !in duty && conns[c].read.None? && conns[c].idle.None?
      modifies `conns, `gens, `fds
      ensures Good({}) && c !in conns && fds == old(fds) - {TheFd(old(conns)[c])}
      ensures old(TheFd(conns[c]) in fds && fds[TheFd(conns[c])] == Socket(Self(S(), c)))
      ensures Kept(old(S()), S(), c, {})
    {
      hide Inv, HistsOk, AppOk, Kept, TheFd, DutyOk, Settled;
      At(S(), c, {c});
      FreeConn(S(), c);
      HistFreed(app, Proj(S()), hist, c);
      KeptFreed(S(), c);
      fds := fds - {TheFd(conns[c])};
      gens := gens[c := (if c in gens then gens[c] else 0) + 1];
      conns := conns - {c};
    }

    /** The timer's cancel was submitted, or the connection stops waiting for the timer. */
    method NoteIdleCancel(c: Slot, asked: bool)
      requires Good({c}) && c in conns && c !in duty && conns[c].closePending && !conns[c].inFlight
      modifies `conns
      ensures Good({c}) && Kept(old(S()), S(), c, {})
      ensures conns == old(conns)[c := if asked then old(conns[c]).(idleCancel := true) else old(conns[c]).(idle := None)]
    {
      hide Good, Kept;
      Here(c, {c});
      SetConn(c, if asked then conns[c].(idleCancel := true) else conns[c].(idle := None));
    }

    /** Asks the kernel to cancel the idle timer of a closing connection, or stops waiting for it. */
    method CancelIdle(c: Slot)
      requires Good({c}) && c in conns && conns[c].closePending && c !in duty && !conns[c].inFlight
      modifies `conns, `jobs, `ops, `inFlight, `shortages
      ensures Good({c}) && Kept(old(S()), S(), c, {}) && c in conns
      ensures conns[c] == old(conns[c]).(idle := conns[c].idle, idleCancel := conns[c].idleCancel)
      ensures conns[c].idle in {None, old(conns[c].idle)} && (conns[c].idle.Some? ==> conns[c].idleCancel)
      ensures old(conns[c].idle.Some? && !conns[c].idleCancel) && conns[c].idle.Some? ==> Asked(old(jobs), jobs, conns[c].idle.value)
      ensures shortages >= old(shortages)
    {
      hide Good, Kept, Asked;
      ghost var s := S();
      KeptSame(s, c);
      if conns[c].idle.Some? && !conns[c].idleCancel {
        var ok := SubmitCancel(conns[c].idle.value, c);
        ghost var s1 := S();
        NoteIdleCancel(c, ok);
        KeptTrans(s, s1, S(), c, {});
      }
    }

    /** The descriptor is given up; the receive's cancel was submitted, or the connection stops
        waiting for the receive. */
    method NoteReadCancel(c: Slot, asked: bool)
      requires Good({c}) && c in conns && c !in duty && conns[c].closePending && !conns[c].inFlight && conns[c].read.Some?
      requires !conns[c].readCancel && conns[c].clientFd >= 0
      modifies `conns
      ensures Good({c}) && Kept(old(S()), S(), c, {})
      ensures var k := old(conns[c]).(deferredFd := old(conns[c].clientFd), clientFd := -1);
              conns == old(conns)[c := if asked then k.(readCancel := true) else k.(read := None)]
    {
      hide Good, Kept;
      Here(c, {c});
      var k := conns[c].(deferredFd := conns[c].clientFd, clientFd := -1);
      SetConn(c, if asked then k.(readCancel := true) else k.(read := None));
    }

    /** Asks the kernel to cancel the receive of a closing connection, or stops waiting for it.
        Either way no received byte is looked at again. */
    method CancelRead(c: Slot)
      requires Good({c}) && c in conns && conns[c].closePending && c !in duty && !conns[c].inFlight
      modifies `conns, `jobs, `ops, `inFlight, `shortages
      ensures Good({c}) && Kept(old(S()), S(), c, {}) && c in conns
      ensures conns[c] == old(conns[c]).(clientFd := conns[c].clientFd, deferredFd := conns[c].deferredFd,
                                         read := conns[c].read, readCancel := conns[c].readCancel)
      ensures conns[c].read in {None, old(conns[c].read)} && (conns[c].read.Some? ==> conns[c].readCancel)
      ensures old(conns[c].read.Some? && !conns[c].readCancel) ==> conns[c].clientFd < 0
      ensures conns[c].clientFd in {-1, old(conns[c].clientFd)}
      ensures old(conns[c].read.Some? && !conns[c].readCancel) && conns[c].read.Some? ==> Asked(old(jobs), jobs, conns[c].read.value)
      ensures shortages >= old(shortages)
    {
      hide Good, Kept, Asked;
      ghost var s := S();
      KeptSame(s, c);
      if conns[c].read.Some? && !conns[c].readCancel {
        StillHasFd(c);
        var ok := SubmitCancel(conns[c].read.value, c);
        ghost var s1 := S();
        NoteReadCancel(c, ok);
        KeptTrans(s, s1, S(), c, {});
      }
    }

    lemma StillHasFd(c: Slot)
      requires Good({c}) && c in conns && conns[c].read.Some? && !conns[c].readCancel
      ensures conns[c].clientFd >= 0
    {
      hide Good, DutyOk;
      Here(c, {c});
    }

    method MarkClosing(c: Slot)
      requires Good({c}) && c in conns && conns[c].readingActive && (conns[c].inFlight <==> c in duty)
      modifies `conns
      ensures conns == old(conns)[c := old(conns[c]).(closePending := true)]
      ensures Good({c}) && (conns[c].inFlight ==> Good({})) && Kept(old(S()), S(), c, {})
    {
      hide Inv, HistsOk, AppOk, Kept;
      At(S(), c, {c});
      SetConn(c, conns[c].(closePending := true));
    }

    /** What is left to wait for, or nothing: then the connection is gone. */
    method FinishClosing(c: Slot)
      requires Good({c}) && c in conns && conns[c].closePending && c !in duty && !conns[c].inFlight
      requires conns[c].idle.Some? ==> conns[c].idleCancel
      requires conns[c].read.Some? ==> conns[c].readCancel && conns[c].clientFd < 0
      modifies `conns, `gens, `fds
      ensures Good({}) && Kept(old(S()), S(), c, {})
      ensures if old(conns[c].read.None? && conns[c].idle.None?) then c !in conns else conns == old(conns)
    {
      hide Inv, HistsOk, AppOk, Kept;
      KeptSame(S(), c);
      if conns[c].idle.None? && conns[c].read.None? {
        Release(c);
      } else {
        At(S(), c, {c});
        Settle(S(), c);
        HistKeeps(app, Proj(S()), hist, c, conns[c]);
        assert conns[c := conns[c]] == conns;
      }
    }

    /** A connection that is closing waits only for receives and timers it asked the kernel to
        cancel, and no longer waits for one whose cancel could not be submitted. */
    method CloseConnection(c: Slot)
      requires Good({c}) && c in conns && conns[c].readingActive && (conns[c].inFlight <==> c in duty)
      modifies `conns, `gens, `jobs, `ops, `fds, `inFlight, `shortages
      ensures Good({}) && Kept(old(S()), S(), c, {})
      ensures old(conns[c].inFlight) ==> conns == old(conns)[c := old(conns[c]).(closePending := true)]
      ensures !old(conns[c].inFlight) && c in conns ==>
                && conns[c].closePending && !conns[c].inFlight
                && conns[c].read in {None, old(conns[c].read)} && conns[c].idle in {None, old(conns[c].idle)}
                && conns[c].buffer == old(conns[c].buffer) && conns[c].range == old(conns[c].range)
      ensures shortages >= old(shortages)
    {
      hide Good, Kept, Settled, TheFd, DutyOk, Core;
      ghost var s := S();
      Here(c, {c});
      MarkClosing(c);
      if conns[c].inFlight {
        return;
      }
      ghost var s1 := S();
      CancelIdle(c);
      ghost var s2 := S();
      CancelRead(c);
      ghost var s3 := S();
      FinishClosing(c);
      KeptTrans(s, s1, s2, c, {});
      KeptTrans(s, s2, s3, c, {});
      KeptTrans(s, s3, S(), c, {});
    }

    lemma Loosen(c: Slot)
      requires Good({})
      ensures Good({c})
    {
      hide Inv, HistsOk, AppOk;
      Weaken(S(), c);
      HistsWeaken(app, Proj(S()), hist, c);
    }

    // -------------------------------------------------------------------------------------
    // Receive and timer completions that end an operation

    /** The receive has ended. The source's early return for a connection with neither
        descriptor is never taken: a live connection always has one. */
    method HandleReadError(c: Slot)
      requires Good({}) && c in conns && conns[c].readingActive
      requires conns[c].clientFd >= 0 && conns[c].read.Some? ==>
                 conns[c].read.value in jobs && jobs[conns[c].read.value].Busy?
      modifies `conns, `gens, `jobs, `ops, `fds, `inFlight, `shortages
      ensures Good({}) && Kept(old(S()), S(), c, {})
      ensures old(conns[c].inFlight) ==> conns == old(conns)[c := old(conns[c]).(read := None, closePending := true)]
      ensures !old(conns[c].inFlight) && c in conns ==>
                conns[c].closePending && !conns[c].inFlight && conns[c].read.None? && conns[c].idle in {None, old(conns[c].idle)}
      ensures shortages >= old(shortages)
    {
      hide Good, Kept, DutyOk;
      ghost var s := S();
      Here(c, {});
      Loosen(c);
      SetConn(c, conns[c].(read := None));
      ghost var s1 := S();
      CloseConnection(c);
      KeptTrans(s, s1, S(), c, {});
    }

    /** A timer has fired or was cancelled. A timer that has been superseded is ignored. */
    method HandleIdleTimeout(c: Slot, job: JobId, res: int)
      requires Good({}) && c in conns
      modifies `conns, `gens, `jobs, `ops, `fds, `inFlight, `shortages
      ensures Good({}) && Kept(old(S()), S(), c, {})
      ensures old(conns[c].idle) != Some(job) ==> conns == old(conns)
      ensures old(conns[c].idle) == Some(job) && c in conns ==>
                && conns[c].idle.None? && conns[c].inFlight == old(conns[c].inFlight)
                && conns[c].read in {None, old(conns[c].read)}
                && (conns[c].closePending <==> res != -SpliceFile.ECANCELED || old(conns[c].closePending))
      ensures shortages >= old(shortages)
    {
      hide Good, Kept, DutyOk;
      ghost var s := S();
      KeptSame(s, c);
      if conns[c].idle != Some(job) {
        return;
      }
      Here(c, {});
      Loosen(c);
      SetConn(c, conns[c].(idle := None));
      ghost var s1 := S();
      if res == -SpliceFile.ECANCELED && !conns[c].closePending {
        return;
      }
      CloseConnection(c);
      KeptTrans(s, s1, S(), c, {});
    }

    // -------------------------------------------------------------------------------------
    // Opening

    /** Arms a fresh idle timer, when timers are configured and one can be had. */
    method ArmIdleTimeout(c: Slot)
      requires Good({}) && c in conns && conns[c].readingActive && !conns[c].closePending
      modifies `conns, `jobs, `ops, `inFlight, `shortages
      ensures Good({}) && Kept(old(S()), S(), c, {}) && c in conns
      ensures conns[c] == old(conns[c]).(idle := conns[c].idle, idleCancel := conns[c].idleCancel)
      ensures conns == old(conns) ||
              (conns[c].idle.Some? && conns[c].idle.value !in old(jobs) && !conns[c].idleCancel)
      ensures shortages >= old(shortages)
    {
      hide *;
      ghost var s := S();
      KeptSame(s, c);
      if !idleTimeout || conns[c].clientFd < 0 {
        return;
      }
      var timer := AllocateJob();
      if timer.None? {
        return;
      }
      var ok := GetSqe();
      if !ok {
        return;
      }
      AddTimer(timer.value, c);
      ghost var s1 := S();
      TrackTimer(timer.value, c);
      KeptTrans(s, s1, S(), c, {});
    }

    method TrackTimer(j: JobId, c: Slot)
      requires Good({}) && c in conns && conns[c].readingActive && !conns[c].closePending
      requires j in jobs && jobs[j] == Timer(Self(S(), c))
      modifies `conns
      ensures Good({}) && Kept(old(S()), S(), c, {})
      ensures conns == old(conns)[c := old(conns[c]).(idle := Some(j), idleCancel := false)]
    {
      hide Good, Kept, DutyOk;
      Here(c, {});
      Loosen(c);
      SetConn(c, conns[c].(idle := Some(j), idleCancel := false));
    }

    method AddTimer(j: JobId, c: Slot)
      requires Good({}) && c in conns && j !in jobs
      modifies `jobs, `ops, `inFlight
      ensures Good({}) && Kept(old(S()), S(), c, {})
      ensures j in jobs && jobs[j] == Timer(Self(S(), c))
    {
      hide Inv, HistsOk, AppOk, Kept;
      var timer := Timer(Owner(c, if c in gens then gens[c] else 0));
      Weaken(S(), c);
      AddArmed(S(), j, timer, c);
      FreshJob(S(), j, {});
      KeptJob(S(), j, timer, 1, c);
      jobs := jobs[j := timer];
      ops := ops[j := 1];
      inFlight := inFlight + 1;
    }

    /** Arms the connection's one multishot receive, if the pool gives a job and the submission
        queue an entry; otherwise everything is left as it is. */
    method StartReading(c: Slot, recv: Option<JobId>, entry: bool)
      requires Good({}) && c in conns && (recv.Some? ==> recv.value !in jobs)
      modifies `conns, `jobs, `ops, `inFlight, `shortages
      ensures Good({}) && Kept(old(S()), S(), c, {}) && c in conns && shortages >= old(shortages)
      ensures old(conns[c].readingActive || conns[c].clientFd < 0) || recv.None? || !entry ==> S() == old(S())
      ensures old(!conns[c].readingActive && conns[c].clientFd >= 0) && recv.Some? && entry ==>
                && conns[c].readingActive && conns[c].read == recv
                && conns[c].clientFd == old(conns[c].clientFd) && conns[c].buffer == old(conns[c].buffer)
                && !conns[c].closePending && !conns[c].inFlight
    {
      hide Good, Kept, DutyOk;
      ghost var s := S();
      KeptSame(s, c);
      if conns[c].readingActive || conns[c].clientFd < 0 || recv.None? || !entry {
        return;
      }
      Here(c, {});
      AddRead(recv.value, c);
      ghost var s1 := S();
      ArmIdleTimeout(c);
      KeptTrans(s, s1, S(), c, {});
    }

    method AddRead(r: JobId, c: Slot)
      requires Good({}) && c in conns && r !in jobs && !conns[c].readingActive && conns[c].clientFd >= 0
      requires conns[c].read.None? && !conns[c].closePending && !conns[c].inFlight
      modifies `conns, `jobs, `ops, `inFlight
      ensures Good({}) && Kept(old(S()), S(), c, {})
      ensures conns == old(conns)[c := old(conns[c]).(readingActive := true, read := Some(r))]
    {
      hide Inv, HistsOk, AppOk, Kept;
      var k := conns[c].(readingActive := true, read := Some(r));
      var recv := Recv(k.clientFd, Owner(c, if c in gens then gens[c] else 0));
      At(S(), c, {});
      Weaken(S(), c);
      HistsWeaken(app, Proj(S()), hist, c);
      ArmRead(S(), c, r);
      HistKeeps(app, Proj(S()), hist, c, k);
      FreshJob(S(), r, {});
      KeptJob(S(), r, recv, 1, c);
      ghost var s, s1 := S(), S().(jobs := jobs[r := recv], ops := ops[r := 1]);
      KeptConn(s1, c, k);
      KeptTrans(s, s1, s1.(conns := conns[c := k]), c, {});
      conns := conns[c := k];
      jobs := jobs[r := recv];
      ops := ops[r := 1];
      inFlight := inFlight + 1;
    }

    /** Slot `c` holds a new connection for socket `fd`. */
    ghost predicate NewlyOpen(s: State, s': State, c: Slot, fd: int) {
      && c in s'.conns && s'.conns.Keys == s.conns.Keys + {c} && Gen(s', c) == Gen(s, c)
      && s'.conns[c].clientFd == fd && s'.conns[c].buffer == [] && !s'.conns[c].closePending && !s'.conns[c].inFlight
      && s'.fds == s.fds[fd := Socket(Self(s, c))]
    }

    /** The socket's connection is taken from the pool. */
    method AddConnection(fd: int, c: Slot)
      requires Idle() && fd >= 0 && fd !in fds && c !in conns
      modifies `conns, `fds, `hist
      ensures Idle() && conns == old(conns)[c := NewConn(fd)] && c !in duty
      ensures fds == old(fds)[fd := Socket(Self(S(), c))]
    {
      hide Inv, HistsOk, AppOk;
      AddConn(S(), c, NewConn(fd));
      At(S(), c, {});
      HistAccepted(app, Proj(S()), hist, c, NewConn(fd));
      hist := hist[Self(S(), c) := FreshHist];
      fds := fds[fd := Socket(Owner(c, if c in gens then gens[c] else 0))];
      conns := conns[c := NewConn(fd)];
    }

    /** A socket is accepted. Without a connection slot it is closed at once. Otherwise it becomes
        a connection, which starts reading exactly when the pool has a receive job for it and the
        submission queue an entry; if not, it is left open with nothing armed. */
    method Accept(fd: int, slot: Option<Slot>, recv: Option<JobId>, entry: bool)
      requires Idle() && fd >= 0 && fd !in fds
      requires (slot.Some? ==> slot.value !in conns) && (recv.Some? ==> recv.value !in jobs)
      modifies this
      ensures Idle() && Strands(old(S()), S())
      ensures forall d :: d in old(conns) ==> d in conns && conns[d] == old(conns)[d]
      ensures slot.None? ==> S() == old(S())
      ensures slot.Some? ==> NewlyOpen(old(S()), S(), slot.value, fd)
      ensures slot.Some? && recv.Some? && entry ==> conns[slot.value].readingActive && conns[slot.value].read == recv
      ensures slot.Some? && (recv.None? || !entry) ==>
                !conns[slot.value].readingActive && jobs == old(jobs) && ops == old(ops)
    {
      hide Good, NoneBusy, Kept;
      if slot.None? {
        return;
      }
      var c := slot.value;
      AddConnection(fd, c);
      ghost var s := S();
      StartReading(c, recv, entry);
      NoneTouched(s, S(), c);
      OthersUntouched(s, S(), c);
      OthersSame(s, S(), c);
    }

    // -------------------------------------------------------------------------------------
    // Responses that fail

    ghost function H(c: Slot): Hist
      reads this
      requires Self(S(), c) in hist
    {
      hist[Self(S(), c)]
    }

    /** The history of connection `c`. */
    lemma HistoryHere(c: Slot, except: set<Slot>)
      requires Good(except) && c in conns
      ensures Self(S(), c) in hist && HistOk(app, H(c)) && HistBase(H(c), conns[c], DutyOf(S(), c))
      ensures c !in except ==> HistIdle(app, H(c), conns[c], DutyOf(S(), c))
    {
      hide Inv, HistsOk, AppOk, HistOk, HistBase, HistIdle;
      HistHere(app, Proj(S()), hist, c, except);
    }

    ghost function Refs(d: Duty): set<JobId> {
      {d.runner} + (if d.file.Some? then {d.file.value} else {})
    }

    /** The file job behind a write or splice, which its callbacks point at. */
    function FileOf(job: Job): Option<JobId> {
      match job
      case Write(_, _, _, FileHeaders(f), _) => Some(f)
      case Write(_, _, _, FileError(f), _) => Some(f)
      case Splice(_, f, _, _, _) => Some(f)
      case _ => None
    }

    /** The job on the wire has had its last completion, or could not be submitted: its
        callback is about to run and nothing refers to it any more. */
    method RetireDuty(j: JobId, c: Slot)
      requires Good({c}) && c in duty && duty[c].runner == j && j in jobs && jobs[j].Busy?
      modifies `duty, `jobs
      ensures Good({c}) && duty == old(duty) - {c} && old(DutyOk(S(), c))
      ensures Kept(old(S()), S(), c, old(Refs(duty[c]))) && FileOf(old(Core(jobs[j]))) == old(duty[c].file)
      ensures j in jobs && jobs[j] == old(jobs[j])
      ensures var file := FileOf(old(Core(jobs[j])));
              file.Some? ==> file.value in old(jobs) && file.value in jobs && jobs[file.value] == Busy(old(jobs)[file.value])
    {
      hide Inv, HistsOk, AppOk, Kept, ConnOk, Settled, SpliceFile.Inv;
      At(S(), c, {c});
      Retire(S(), c);
      KeptRetired(S(), c);
      HistRetired(app, Proj(S()), hist, c);
      var file := FileOf(Core(jobs[j]));
      duty := duty - {c};
      if file.Some? {
        jobs := jobs[file.value := Busy(jobs[file.value])];
      }
    }

    /** Returns a job to its pool. */
    method Deallocate(j: JobId, ghost c: Slot)
      requires Good({c}) && j in jobs && jobs[j].Busy? && Home(Core(jobs[j])) in {None, Some(c)}
      requires Unreferenced(S(), j, c)
      modifies `jobs
      ensures jobs == old(jobs) - {j} && Good({c}) && (old(Good({})) ==> Good({}))
      ensures Kept(old(S()), S(), c, {j})
    {
      hide Inv, HistsOk, AppOk, Kept, Unreferenced, Home;
      Discard(S(), j, c);
      KeptDiscarded(S(), j, c);
      jobs := jobs - {j};
    }

    /** The connection is gone or closing; what it had read is untouched. */
    ghost predicate GivenUp(c: Slot, k: Conn)
      reads this
    {
      c in conns ==>
        && conns[c].closePending && !conns[c].inFlight
        && conns[c].buffer == k.buffer && conns[c].range == k.range
    }

    /** The response failed: the connection's error callback releases the slot and closes. */
    method ConnectionError(c: Slot)
      requires Good({c}) && c in conns && conns[c].inFlight && c !in duty
      modifies `conns, `gens, `jobs, `ops, `fds, `inFlight, `shortages
      ensures Good({}) && Kept(old(S()), S(), c, {})
      ensures GivenUp(c, old(conns[c]))
      ensures shortages >= old(shortages)
    {
      hide Good, Kept, DutyOk, Settled;
      ghost var s := S();
      Here(c, {c});
      SetConn(c, conns[c].(inFlight := false));
      ghost var s1 := S();
      CloseConnection(c);
      KeptTrans(s, s1, S(), c, {});
    }

    // -------------------------------------------------------------------------------------
    // File jobs

    /** An HTTPFileJob that is running one of its own methods. */
    ghost predicate FileBusy(f: JobId, c: Slot)
      reads this
    {
      && f in jobs && jobs[f].Busy? && jobs[f].was.File?
      && c in conns && jobs[f].was.owner == Self(S(), c) && jobs[f].was.fd == conns[c].clientFd
    }

    /** Closes the file, if it is open. */
    method CloseSource(f: JobId, c: Slot)
      requires Good({c}) && FileBusy(f, c) && c !in duty
      modifies `jobs, `fds
      ensures Good({c}) && FileBusy(f, c) && Kept(old(S()), S(), c, {f})
      ensures jobs == old(jobs)[f := Busy(old(jobs[f].was).(source := old(jobs[f].was.source).(fd := -1)))]
      ensures fds == if old(jobs[f].was.source.fd) >= 0 then old(fds) - {old(jobs[f].was.source.fd)} else old(fds)
      ensures old(jobs[f].was.source.fd) >= 0 ==>
                old(jobs[f].was.source.fd in fds && fds[jobs[f].was.source.fd] == OpenFile(f))
    {
      hide Inv, HistsOk, AppOk, Kept, Settled, DutyOk;
      At(S(), c, {c});
      JobAt(S(), f, {c});
      var core := jobs[f].was.(source := jobs[f].was.source.(fd := -1));
      var left := if jobs[f].was.source.fd >= 0 then fds - {jobs[f].was.source.fd} else fds;
      if jobs[f].was.source.fd == -1 {
        assert jobs[f].was.source.(fd := -1) == jobs[f].was.source;
      }
      ReviseFile(S(), f, core, c, left);
      KeptRevised(S(), f, core, c, left);
      fds := left;
      jobs := jobs[f := Busy(core)];
    }

    /** A job that serves a response is not a receive or a timer, so only a response refers to it. */
    lemma ResponderFree(j: JobId, c: Slot, except: set<Slot>)
      requires Good(except) && j in jobs && jobs[j].Busy? && !Core(jobs[j]).Recv? && !Core(jobs[j]).Timer?
      requires SourceFd(S(), j) < 0 && (c in duty ==> duty[c].runner != j)
      ensures Unreferenced(S(), j, c)
    {
      hide Good, RunnerOk, Settled;
      Here(c, except);
    }

    /** The error callback of an HTTPFileJob's child: close the file, fail the response, free the job. */
    method FileFailed(f: JobId, c: Slot)
      requires Good({c}) && FileBusy(f, c) && c !in duty && conns[c].inFlight
      modifies `conns, `gens, `jobs, `ops, `fds, `inFlight, `shortages
      ensures Good({}) && Kept(old(S()), S(), c, {f}) && f !in jobs
      ensures GivenUp(c, old(conns[c]))
      ensures shortages >= old(shortages)
    {
      hide Good, Kept, Unreferenced;
      ghost var s := S();
      CloseSource(f, c);
      ghost var s1 := S();
      ConnectionError(c);
      ghost var s2 := S();
      KeptAt(s1, s2, c, f);
      ResponderFree(f, c, {});
      Loosen(c);
      Deallocate(f, c);
      KeptWiden(s1, s2, c, {}, {f});
      KeptTrans(s, s1, s2, c, {f});
      KeptTrans(s, s2, S(), c, {f});
    }

    /** The error callback of a WriteJob with fields `job`. */
    method WriteFailed(job: Job, c: Slot)
      requires Good({c}) && job.Write? && c in conns && c !in duty && conns[c].inFlight
      requires FileOf(job).Some? ==> FileBusy(FileOf(job).value, c)
      modifies `conns, `gens, `jobs, `ops, `fds, `inFlight, `shortages
      ensures Good({}) && Kept(old(S()), S(), c, FileSet(job)) && Quiet(S(), FileSet(job))
      ensures GivenUp(c, old(conns[c]))
      ensures shortages >= old(shortages)
    {
      hide Good, Kept, FileBusy, GivenUp;
      match job.then_ {
        case ToConnection(_) => ConnectionError(c);
        case FileHeaders(f) => FileFailed(f, c);
        case FileError(f) => FileFailed(f, c);
      }
    }

    function FileSet(job: Job): set<JobId> {
      if FileOf(job).Some? then {FileOf(job).value} else {}
    }

    /** Nothing was queued for the write: free it, then tell its owner. */
    method Abandon(j: JobId, c: Slot)
      requires Good({c}) && c in conns && c in duty && duty[c].runner == j && j in jobs && jobs[j].Busy? && Core(jobs[j]).Write?
      modifies `conns, `gens, `jobs, `ops, `fds, `inFlight, `duty, `shortages
      ensures Good({}) && Kept(old(S()), S(), c, old(Refs(duty[c]))) && duty == old(duty) - {c}
      ensures Quiet(S(), old(Refs(duty[c])))
      ensures GivenUp(c, old(conns[c]))
      ensures shortages >= old(shortages)
    {
      hide Good, Kept, Unreferenced, SpliceFile.Inv, GivenUp;
      ghost var s, x := S(), Refs(duty[c]);
      var job := Core(jobs[j]);
      RetireDuty(j, c);
      ghost var s1 := S();
      ResponderFree(j, c, {c});
      Deallocate(j, c);
      ghost var s2 := S();
      WriteFailed(job, c);
      StillQuiet(s2, S(), c, FileSet(job), j);
      KeptWiden(s1, s2, c, {j}, x);
      KeptWiden(s2, S(), c, FileSet(job), x);
      KeptTrans(s, s1, s2, c, x);
      KeptTrans(s, s2, S(), c, x);
    }

    method LaunchWrite(j: JobId, c: Slot)
      requires Good({}) && c in duty && duty[c].runner == j && j in jobs && jobs[j].Busy? && Core(jobs[j]).Write?
      modifies `jobs, `ops, `inFlight
      ensures Good({}) && Kept(old(S()), S(), c, {j}) && jobs == old(jobs)[j := old(Core(jobs[j]))]
    {
      hide Inv, HistsOk, AppOk, Kept;
      Weaken(S(), c);
      JobAt(S(), j, {});
      Launch(S(), j, c);
      KeptJob(S(), j, Core(jobs[j]), 1, c);
      jobs := jobs[j := Core(jobs[j])];
      ops := ops[j := 1];
      inFlight := inFlight + 1;
    }

    /** The response on the wire, if there is one, is in the kernel's hands. */
    ghost predicate Launched(c: Slot)
      reads this
    {
      RunnerLaunched(S(), c)
    }

    lemma LaunchedQuiet(c: Slot)
      requires Good({}) && c in duty && Launched(c)
      ensures Quiet(S(), Refs(duty[c]))
    {
      hide Good, RunnerOk, ConnOk, Settled;
      Here(c, {});
    }

    /** Queues the write, flushing a full submission queue once; otherwise abandons it. */
    method SubmitWrite(j: JobId, c: Slot)
      requires Good({}) && c in conns && c in duty && duty[c].runner == j && j in jobs && jobs[j].Busy? && Core(jobs[j]).Write?
      modifies `conns, `gens, `jobs, `ops, `fds, `inFlight, `duty, `shortages
      ensures Good({}) && Kept(old(S()), S(), c, old(Refs(duty[c]))) && Launched(c)
      ensures Quiet(S(), old(Refs(duty[c])))
      ensures if c in duty then duty == old(duty) && conns == old(conns) && jobs == old(jobs)[j := old(Core(jobs[j]))]
              else duty == old(duty) - {c} && GivenUp(c, old(conns[c])) && shortages > old(shortages)
      ensures shortages >= old(shortages)
    {
      hide Good, Kept, Core, GivenUp;
      ghost var x := Refs(duty[c]);
      var ok := GetSqe();
      if !ok {
        var flushed: bool := *;
        if flushed {
          ok := GetSqe();
        }
      }
      if ok {
        ghost var s := S();
        LaunchWrite(j, c);
        LaunchedQuiet(c);
        KeptWiden(s, S(), c, {j}, x);
      } else {
        Loosen(c);
        Abandon(j, c);
      }
    }

    // -------------------------------------------------------------------------------------
    // Starting a response

    /** The connection can start a response: its single slot is free and it is not closing. */
    ghost predicate Calm(c: Slot)
      reads this
    {
      && c in conns && c !in duty && conns[c].clientFd >= 0
      && conns[c].readingActive && !conns[c].closePending && conns[c].read.Some?
    }

    /** Takes a job for connection `c` from its pool. */
    method TakeJob(job: Job, c: Slot) returns (r: Option<JobId>)
      requires Good({c}) && c in conns && Home(job) == Some(c) && (job.File? ==> job.source.fd < 0)
      modifies `jobs, `shortages
      ensures r.None? ==> jobs == old(jobs) && shortages > old(shortages)
      ensures r.Some? ==> r.value !in old(jobs) && jobs == old(jobs)[r.value := Busy(job)] && shortages == old(shortages)
      ensures Good({c}) && Kept(old(S()), S(), c, if r.Some? then {r.value} else {})
      ensures shortages >= old(shortages)
    {
      hide Inv, HistsOk, AppOk, Kept, Home;
      KeptSame(S(), c);
      r := AllocateJob();
      if r.Some? {
        AddBusy(S(), r.value, job, c);
        FreshJob(S(), r.value, {c});
        KeptJob(S(), r.value, Busy(job), 0, c);
        assert ops[r.value := 0] == ops;
        jobs := jobs[r.value := Busy(job)];
      }
    }

    /** Job `d.runner` becomes the connection's response, as exchange `ex`. */
    method InstallDuty(c: Slot, file: Option<JobId>, ghost d: Duty, ghost ex: Exchange)
      requires Good({c}) && Calm(c) && conns[c].inFlight && ex.stopping == stopping
      requires d.file == file && d.keep == ex.keep && d.rest == ex.bytes
      requires d.runner in jobs && jobs[d.runner].Busy?
      requires RunnerOk(Core(jobs[d.runner]), d, conns[c].clientFd, Self(S(), c))
      requires file.Some? ==>
                 && FileBusy(file.value, c) && file.value != d.runner
                 && FileOk(jobs[file.value].was, Core(jobs[d.runner]), d, conns[c].clientFd, Self(S(), c))
      requires Self(S(), c) in hist && MayFollow(app, H(c), ex)
      modifies `jobs, `duty, `hist
      ensures Good({}) && duty == old(duty)[c := d]
      ensures jobs == if file.Some? then old(jobs)[file.value := old(jobs)[file.value].was] else old(jobs)
      ensures hist == Logged(old(hist), Self(S(), c), ex)
      ensures Kept(old(S()), S(), c, if file.Some? then {file.value} else {})
      ensures Still(old(hist), hist)
    {
      hide Inv, HistsOk, AppOk, HistOk, RunnerOk, FileOk, MayFollow, ConnOk, Kept;
      ghost var settled := if file.Some? then jobs[file.value].was else Cancel(0);
      Install(S(), c, d, settled);
      KeptInstalled(S(), c, d, settled);
      HistInstalled(app, Proj(S()), hist, c, d, ex);
      ghost var h := H(c);
      hist := hist[Self(S(), c) := h.(log := h.log + [ex])];
      duty := duty[c := d];
      if file.Some? {
        jobs := jobs[file.value := jobs[file.value].was];
      }
    }

    /** The response a WriteJob with these callbacks puts on the wire. */
    ghost predicate Writes(c: Slot, data: string, then_: Then, ex: Exchange)
      reads this
    {
      ex.stopping == stopping &&
      match then_
      case ToConnection(keep) => keep == ex.keep && ex.bytes == data
      case FileHeaders(f) =>
        && FileBusy(f, c) && jobs[f].was.keep == ex.keep && jobs[f].was.source.fd >= 0
        && jobs[f].was.source.offset + jobs[f].was.source.length <= |jobs[f].was.source.content|
        && ex.bytes == data + Part(jobs[f].was.source)
      case FileError(f) =>
        && FileBusy(f, c) && jobs[f].was.keep == ex.keep && jobs[f].was.source.fd < 0
        && jobs[f].was.source.offset + jobs[f].was.source.length <= |jobs[f].was.source.content|
        && ex.bytes == data
    }

    /** The histories with response `ex` started by connection `o`. */
    ghost function Logged(h: map<Owner, Hist>, o: Owner, ex: Exchange): map<Owner, Hist>
      requires o in h
    {
      h[o := h[o].(log := h[o].log + [ex])]
    }

    /** Response `ex` is on the wire of connection `o`, whose fields are `k`, from its first byte,
        and its log is the only history that has grown. */
    ghost predicate OnWire(o: Owner, k: Conn, h: map<Owner, Hist>, ex: Exchange)
      reads this
    {
      && o in h && hist == Logged(h, o, ex)
      && Valid(S(), o) && conns[o.slot] == k
      && o.slot in duty && duty[o.slot].keep == ex.keep && duty[o.slot].rest == ex.bytes
    }

    /** The response is on the wire; or, after a shortage, the connection is gone or closing. */
    ghost predicate Underway(o: Owner, k: Conn, h: map<Owner, Hist>, ex: Exchange, short: bool)
      reads this
    {
      || OnWire(o, k, h, ex)
      || (short && o in h && (hist == h || hist == Logged(h, o, ex)) && o.slot !in duty && GivenUp(o.slot, k))
    }

    /** The new WriteJob becomes the connection's response. */
    method InstallWrite(j: JobId, c: Slot, data: string, then_: Then, ghost ex: Exchange)
      requires Good({c}) && Calm(c) && conns[c].inFlight && Writes(c, data, then_, ex)
      requires Self(S(), c) in hist && MayFollow(app, H(c), ex)
      requires j in jobs && jobs[j] == Busy(Write(conns[c].clientFd, data, 0, then_, Self(S(), c)))
      requires !then_.ToConnection? ==> then_.file != j
      modifies `jobs, `duty, `hist
      ensures Good({}) && hist == Logged(old(hist), Self(S(), c), ex)
      ensures duty == old(duty)[c := Duty(j, ThenFile(then_), ex.keep, ex.bytes)]
      ensures jobs == if then_.ToConnection? then old(jobs) else old(jobs)[then_.file := old(jobs[then_.file].was)]
      ensures Kept(old(S()), S(), c, ThenFiles(then_)) && Still(old(hist), hist)
    {
      hide Good, Kept, MayFollow, RunnerOk, FileOk, Still, Logged;
      WriteFits(c, data, then_, ex, j);
      InstallDuty(c, if then_.ToConnection? then None else Some(then_.file), Duty(j, ThenFile(then_), ex.keep, ex.bytes), ex);
    }

    lemma WriteFits(c: Slot, data: string, then_: Then, ex: Exchange, j: JobId)
      requires c in conns && Writes(c, data, then_, ex)
      ensures var job, d := Write(conns[c].clientFd, data, 0, then_, Self(S(), c)), Duty(j, ThenFile(then_), ex.keep, ex.bytes);
              && RunnerOk(job, d, conns[c].clientFd, Self(S(), c))
              && (ThenFile(then_).Some? ==>
                    && FileBusy(then_.file, c)
                    && FileOk(jobs[then_.file].was, job, d, conns[c].clientFd, Self(S(), c)))
    {
      assert data[0..] == data;
    }

    ghost function ThenFile(then_: Then): Option<JobId> {
      if then_.ToConnection? then None else Some(then_.file)
    }

    ghost function ThenFiles(then_: Then): set<JobId> {
      if then_.ToConnection? then {} else {then_.file}
    }

    /** The new WriteJob is submitted as the connection's response; a write that cannot be queued
        fails the response. */
    method RunWrite(j: JobId, c: Slot, data: string, then_: Then, ghost ex: Exchange)
      requires Good({c}) && Calm(c) && conns[c].inFlight && Writes(c, data, then_, ex)
      requires Self(S(), c) in hist && MayFollow(app, H(c), ex)
      requires j in jobs && jobs[j] == Busy(Write(conns[c].clientFd, data, 0, then_, Self(S(), c)))
      requires !then_.ToConnection? ==> then_.file != j
      modifies `conns, `gens, `jobs, `ops, `fds, `inFlight, `duty, `hist, `shortages
      ensures Good({}) && Launched(c) && Quiet(S(), ThenFiles(then_) + {j}) && shortages >= old(shortages)
      ensures Underway(old(Self(S(), c)), old(conns[c]), old(hist), ex, shortages > old(shortages))
      ensures c in duty ==> Writing(c, data, then_)
      ensures c in duty && !then_.ToConnection? ==> then_.file in jobs && jobs[then_.file] == old(jobs[then_.file].was)
      ensures Kept(old(S()), S(), c, ThenFiles(then_) + {j}) && Still(old(hist), hist)
    {
      hide Good, Kept, MayFollow, Launched, Still, GivenUp, Logged;
      ghost var s, x := S(), ThenFiles(then_) + {j};
      InstallWrite(j, c, data, then_, ex);
      ghost var s1 := S();
      KeptWiden(s, s1, c, ThenFiles(then_), x);
      assert Refs(duty[c]) == x;
      SubmitWrite(j, c);
      KeptTrans(s, s1, S(), c, x);
    }

    /** Creates the WriteJob of a response and starts it. Fails, changing nothing, when the pool
        is exhausted. */
    method StartWrite(c: Slot, data: string, then_: Then, ghost ex: Exchange) returns (ok: bool)
      requires Good({c}) && Calm(c) && conns[c].inFlight && Writes(c, data, then_, ex)
      requires Self(S(), c) in hist && MayFollow(app, H(c), ex)
      modifies `conns, `gens, `jobs, `ops, `fds, `inFlight, `duty, `hist, `shortages
      ensures !ok ==> Good({c}) && S() == old(S()) && hist == old(hist) && shortages > old(shortages)
      ensures ok ==>
                && Good({}) && Launched(c) && Quiet(S(), ThenFiles(then_))
                && Underway(old(Self(S(), c)), old(conns[c]), old(hist), ex, shortages > old(shortages))
                && (c in duty ==> Writing(c, data, then_))
      ensures ok && c in duty && !then_.ToConnection? ==> then_.file in jobs && jobs[then_.file] == old(jobs[then_.file].was)
      ensures Kept(old(S()), S(), c, ThenFiles(then_)) && Still(old(hist), hist)
      ensures shortages >= old(shortages)
    {
      hide Good, Kept, MayFollow, Launched, Still, OnWire, GivenUp, Writing, Logged;
      ghost var s, x := S(), ThenFiles(then_);
      var me := Owner(c, if c in gens then gens[c] else 0);
      var r := TakeJob(Write(conns[c].clientFd, data, 0, then_, me), c);
      ok := r.Some?;
      if !ok {
        StillSame(hist);
        KeptWiden(s, S(), c, {}, x);
      } else {
        ghost var s1, y := S(), x + {r.value};
        RunWrite(r.value, c, data, then_, ex);
        KeptNewJob(s, s1, S(), c, r.value, x, y);
      }
    }

    /** The job on the wire is a WriteJob that has all of `data` still to write. */
    ghost predicate Writing(c: Slot, data: string, then_: Then)
      reads this
    {
      && c in duty && c in conns && duty[c].file == ThenFile(then_) && duty[c].runner in jobs
      && jobs[duty[c].runner] == Write(conns[c].clientFd, data, 0, then_, Self(S(), c))
    }

    // -------------------------------------------------------------------------------------
    // File responses

    /** File job `f` is about to produce the answer to `req`. */
    ghost predicate FileReady(f: JobId, c: Slot, req: HttpRequest)
      reads this
    {
      && Calm(c) && conns[c].inFlight && FileBusy(f, c)
      && jobs[f].was.source.offset + jobs[f].was.source.length <= |jobs[f].was.source.content|
      && jobs[f].was.response.filePath != ""
      && Self(S(), c) in hist && Ready(app, H(c), req, jobs[f].was.response, jobs[f].was.keep, stopping)
    }

    lemma NewFileReady(f: JobId, c: Slot, req: HttpRequest)
      requires Calm(c) && conns[c].inFlight && FileBusy(f, c)
      requires jobs[f].was.source == Source(-1, [], 0, 0) && jobs[f].was.response.filePath != ""
      requires Self(S(), c) in hist && Ready(app, H(c), req, jobs[f].was.response, jobs[f].was.keep, stopping)
      ensures FileReady(f, c, req)
    {
      hide Ready;
    }

    lemma FileHome(job: Job)
      requires job.File?
      ensures Home(job) == Some(job.owner.slot)
    {
    }

    /** The answer of file job `f` with these contents and bytes. */
    ghost function FileExchange(f: JobId, c: Slot, contents: Option<string>, bytes: string): Exchange
      requires f in jobs && jobs[f].Busy? && jobs[f].was.File? && Self(S(), c) in hist
      reads this
    {
      Exchange(Some(|H(c).log|), jobs[f].was.keep, stopping, contents, bytes)
    }

    /** HTTPFileJob::sendError: the file is closed and the error page becomes the response. */
    method SendError(f: JobId, c: Slot, code: int, size: Option<nat>, ghost req: HttpRequest, ghost contents: Option<string>)
      requires Good({c}) && FileReady(f, c, req)
      requires FileAnswer(app, jobs[f].was.response, app.range(req), contents, app.fileError(jobs[f].was.response, code, size))
      modifies `conns, `gens, `jobs, `ops, `fds, `inFlight, `duty, `hist, `shortages
      ensures Good({}) && Kept(old(S()), S(), c, {f}) && Launched(c) && Quiet(S(), {f})
      ensures Still(old(hist), hist) && shortages >= old(shortages)
      ensures Underway(old(Self(S(), c)), old(conns[c]), old(hist),
                       old(FileExchange(f, c, contents, app.fileError(jobs[f].was.response, code, size))), shortages > old(shortages))
      ensures c in duty ==>
                && Writing(c, app.fileError(old(jobs[f].was.response), code, size), FileError(f))
                && f in jobs && jobs[f] == old(jobs[f].was).(source := old(jobs[f].was.source).(fd := -1))
    {
      hide Good, Kept, MayFollow, Ready, FileAnswer, ConnOk, Still, Underway, GivenUp, Writing, Launched;
      ghost var s := S();
      var res := jobs[f].was.response;
      CloseSource(f, c);
      ghost var s1 := S();
      var data := app.fileError(res, code, size);
      ghost var ex := FileExchange(f, c, contents, data);
      AnswerFollows(app, H(c), req, res, jobs[f].was.keep, stopping, contents, data);
      var ok := StartWrite(c, data, FileError(f), ex);
      ghost var s2 := S();
      KeptTrans(s, s1, s2, c, {f});
      if !ok {
        FileFailed(f, c);
        Failed(old(Self(S(), c)), old(conns[c]), old(hist), ex);
        KeptTrans(s, s2, S(), c, {f});
      }
    }

    /** A response that could not be started has been given up. */
    lemma Failed(o: Owner, k: Conn, h: map<Owner, Hist>, ex: Exchange)
      requires o in h && hist == h && o.slot !in duty && GivenUp(o.slot, k)
      ensures Underway(o, k, h, ex, true) && Launched(o.slot)
    {
    }

    /** HTTPFileJob::startSendingHeaders, with the file open. */
    method StartSendingHeaders(f: JobId, c: Slot, plan: RangeRequest.Plan, ghost req: HttpRequest) returns (ghost ex: Exchange)
      requires Good({c}) && FileReady(f, c, req) && jobs[f].was.source.fd >= 0
      requires var src := jobs[f].was.source;
               && plan == RangeRequest.PlanRange(app.range(req), |src.content|) && plan.Plan?
               && src.offset == plan.offset && src.length == plan.length
      modifies `conns, `gens, `jobs, `ops, `fds, `inFlight, `duty, `hist, `shortages
      ensures Good({}) && Kept(old(S()), S(), c, {f}) && Launched(c) && Quiet(S(), {f})
      ensures Still(old(hist), hist) && shortages >= old(shortages)
      ensures ex == old(FileExchange(f, c, Some(jobs[f].was.source.content), ex.bytes))
      ensures FileAnswer(app, old(jobs[f].was.response), app.range(req), ex.contents, ex.bytes)
      ensures shortages == old(shortages) ==> ex.bytes == FileBytes(app, old(jobs[f].was.response), app.range(req), ex.contents)
      ensures Underway(old(Self(S(), c)), old(conns[c]), old(hist), ex, shortages > old(shortages))
      ensures c in duty ==> duty[c].file == Some(f)
    {
      hide Good, Kept, MayFollow, Ready, FileAnswer, ConnOk, Launched, RangeRequest.PlanRange, Still, OnWire;
      ghost var s := S();
      var res, src := jobs[f].was.response, jobs[f].was.source;
      PlannedAnswer(app, res, app.range(req), Some(src.content));
      var head := app.fileHead(res, plan, |src.content|);
      ghost var refused := FileExchange(f, c, Some(src.content), app.fileError(res, 500, None));
      if head.None? {
        SendError(f, c, 500, None, req, Some(src.content));
        return refused;
      }
      ex := FileExchange(f, c, Some(src.content), head.value + Part(src));
      AnswerFollows(app, H(c), req, res, jobs[f].was.keep, stopping, Some(src.content), ex.bytes);
      var ok := StartWrite(c, head.value, FileHeaders(f), ex);
      ghost var s1 := S();
      if !ok {
        SendError(f, c, 500, None, req, Some(src.content));
        KeptTrans(s, s1, S(), c, {f});
        ex := refused;
      }
    }

    /** The file is open: descriptor `fd`, the bytes fstat saw, the part to send. */
    method OpenSource(f: JobId, c: Slot, src: Source)
      requires Good({c}) && FileBusy(f, c) && c !in duty && jobs[f].was.source.fd < 0 <= src.fd && src.fd !in fds
      modifies `jobs, `fds
      ensures Good({c}) && FileBusy(f, c) && Kept(old(S()), S(), c, {f})
      ensures jobs == old(jobs)[f := Busy(old(jobs[f].was).(source := src))] && fds == old(fds)[src.fd := OpenFile(f)]
    {
      hide Inv, HistsOk, AppOk, Kept, Settled, DutyOk;
      At(S(), c, {c});
      var core := jobs[f].was.(source := src);
      ReviseFile(S(), f, core, c, fds[src.fd := OpenFile(f)]);
      KeptRevised(S(), f, core, c, fds[src.fd := OpenFile(f)]);
      fds := fds[src.fd := OpenFile(f)];
      jobs := jobs[f := Busy(core)];
    }

    /** HTTPFileJob::start: open the file, resolve the range against the size fstat reports, and
        answer 404, 416 or the file. The descriptor of a refused file is closed again at once. */
    method StartFile(f: JobId, c: Slot, range: Option<RangeRequest.ByteRangeSpec>, ghost req: HttpRequest) returns (ghost ex: Exchange)
      requires Good({c}) && FileReady(f, c, req) && jobs[f].was.source.fd < 0 && range == app.range(req)
      modifies `conns, `gens, `jobs, `ops, `fds, `inFlight, `duty, `hist, `shortages
      ensures Good({}) && Kept(old(S()), S(), c, {f}) && Launched(c) && Quiet(S(), {f})
      ensures Still(old(hist), hist) && shortages >= old(shortages)
      ensures ex == old(FileExchange(f, c, ex.contents, ex.bytes))
      ensures FileAnswer(app, old(jobs[f].was.response), range, ex.contents, ex.bytes)
      ensures shortages == old(shortages) ==> ex.bytes == FileBytes(app, old(jobs[f].was.response), range, ex.contents)
      ensures Underway(old(Self(S(), c)), old(conns[c]), old(hist), ex, shortages > old(shortages))
      ensures c in duty ==> duty[c].file == Some(f)
    {
      hide Good, Kept, MayFollow, Ready, FileAnswer, ConnOk, Launched, RangeRequest.PlanRange, Still, OnWire;
      ghost var s := S();
      var fd: int, content: string := *, *;
      var res := jobs[f].was.response;
      PlannedAnswer(app, res, range, None);
      PlannedAnswer(app, res, range, Some(content));
      if fd < 0 || fd in fds {
        ex := FileExchange(f, c, None, app.fileError(res, 404, None));
        SendError(f, c, 404, None, req, None);
        return;
      }
      var plan := RangeRequest.PlanRange(range, |content|);
      if plan.Unsatisfiable? {
        ex := FileExchange(f, c, Some(content), app.fileError(res, 416, Some(|content|)));
        SendError(f, c, 416, Some(|content|), req, Some(content));
        return;
      }
      OpenSource(f, c, Source(fd, content, plan.offset, plan.length));
      ghost var s1 := S();
      ex := StartSendingHeaders(f, c, plan, req);
      KeptTrans(s, s1, S(), c, {f});
    }

    // -------------------------------------------------------------------------------------
    // Requests

    /** The connection waits, between responses, with a response still to be started for `cause`. */
    ghost predicate Pending(c: Slot, res: HttpResponse, cause: Cause)
      reads this
    {
      && Calm(c) && !conns[c].inFlight && Self(S(), c) in hist
      && match cause
         case Answer(req) =>
           && res == app.route(req) && Unanswered(H(c), req)
           && conns[c].keepAlive == app.keep(req) && conns[c].advertise == (req.version != "HTTP/1.1")
           && conns[c].range == app.range(req)
         case Refusal(code) =>
           && res == app.refusal(code) && Refusing(H(c)) && code == RefusalCode(H(c).refused.value)
           && !conns[c].keepAlive && !conns[c].advertise
    }

    /** sendResponse claims the connection's single response slot. */
    method Claim(c: Slot, keep: bool, range: Option<RangeRequest.ByteRangeSpec>)
      requires Good({c}) && Calm(c)
      modifies `conns
      ensures conns == old(conns)[c := old(conns[c]).(keepAlive := keep, inFlight := true, range := range)]
      ensures Good({c}) && Kept(old(S()), S(), c, {})
    {
      hide Good, Kept, Settled;
      Here(c, {c});
      SetConn(c, conns[c].(keepAlive := keep, inFlight := true, range := range));
    }

    lemma OnlyAnswersHaveFiles(c: Slot, response: HttpResponse, cause: Cause, keep: bool, advertise: bool)
      requires Good({c}) && Pending(c, response, cause) && app.stamp(response, keep, advertise).filePath != ""
      ensures cause.Answer?
    {
      hide Inv, HistsOk, Framing.Framed, Unanswered, Refusing;
    }

    /** The connection's fields once it has claimed the response slot for a response: the range
        goes with a file response, so that no later request can see it. */
    ghost function Claimed(k: Conn, response: HttpResponse, keep: bool): Conn {
      k.(keepAlive := keep, inFlight := true,
         range := if app.stamp(response, keep, k.advertise).filePath == "" then k.range else None)
    }

    /** The exchange is what `cause` calls for. */
    ghost predicate Serves(cause: Cause, n: nat, ex: Exchange) {
      match cause
      case Answer(req) => ex.answers == Some(n) && Answered(app, req, ex)
      case Refusal(code) => ex.answers.None? && IsRefusal(app, ex, code)
    }

    /** Decides once whether the connection outlives the response, states it on the response, and
        starts the transfer. Only a shortage keeps the response from being started. */
    method SendResponse(c: Slot, response: HttpResponse, ghost cause: Cause) returns (ghost ex: Exchange)
      requires Good({c}) && Pending(c, response, cause)
      modifies `conns, `gens, `jobs, `ops, `fds, `inFlight, `duty, `hist, `shortages, `stopping
      ensures Good({}) && Kept(old(S()), S(), c, {}) && Launched(c)
      ensures Still(old(hist), hist) && shortages >= old(shortages)
      ensures ex.stopping == stopping && Serves(cause, old(|H(c).log|), ex)
      ensures ex.keep <==> old(conns[c].keepAlive) && !app.closes(response) && !stopping
      ensures Underway(old(Self(S(), c)), old(Claimed(conns[c], response, ex.keep)), old(hist), ex, shortages > old(shortages))
    {
      hide Good, Kept, FileAnswer, Unanswered, Refusing, Launched, Still, Underway, Answered, IsRefusal;
      var closing := app.closes(response);
      if !closing {
        closing := IsStopping();
      }
      var keep := conns[c].keepAlive && !closing;
      var res := app.stamp(response, keep, conns[c].advertise);
      if res.filePath == "" {
        ex := SendBody(c, res, keep, cause);
      } else {
        OnlyAnswersHaveFiles(c, response, cause, keep, conns[c].advertise);
        ex := SendFile(c, res, keep, cause.req);
      }
    }

    /** The response is a string: one WriteJob sends all of it. */
    method SendBody(c: Slot, res: HttpResponse, keep: bool, ghost cause: Cause) returns (ghost ex: Exchange)
      requires Good({c}) && Calm(c) && Self(S(), c) in hist && res.filePath == ""
      requires match cause
               case Answer(req) => Ready(app, H(c), req, res, keep, stopping)
               case Refusal(code) =>
                 && Refusing(H(c)) && code == RefusalCode(H(c).refused.value)
                 && !keep && res == app.stamp(app.refusal(code), false, false)
      modifies `conns, `gens, `jobs, `ops, `fds, `inFlight, `duty, `hist, `shortages
      ensures Good({}) && Kept(old(S()), S(), c, {}) && Launched(c)
      ensures Still(old(hist), hist) && shortages >= old(shortages)
      ensures ex.keep == keep && ex.stopping == stopping && ex.bytes == app.body(res, keep) && Serves(cause, old(|H(c).log|), ex)
      ensures Underway(old(Self(S(), c)), old(conns[c].(keepAlive := keep, inFlight := true)), old(hist), ex, shortages > old(shortages))
      ensures c in duty ==> Writing(c, app.body(res, keep), ToConnection(keep))
    {
      hide Good, Kept, MayFollow, Ready, Refusing, Still, Underway, GivenUp, Writing, Launched, Answered, IsRefusal;
      ghost var s, h, me := S(), H(c), Self(S(), c);
      Claim(c, keep, conns[c].range);
      ghost var s1, k := S(), conns[c];
      var data := app.body(res, keep);
      ex := Exchange(if cause.Answer? then Some(|h.log|) else None, keep, stopping, None, data);
      if cause.Answer? {
        AnswerFollows(app, h, cause.req, res, keep, stopping, None, data);
      } else {
        RefusalFollows(app, h, stopping);
      }
      var ok := StartWrite(c, data, ToConnection(keep), ex);
      ghost var s2 := S();
      KeptTrans(s, s1, s2, c, {});
      if !ok {
        ConnectionError(c);
        Failed(me, k, old(hist), ex);
        KeptTrans(s, s2, S(), c, {});
      }
    }

    /** The response is a file: an HTTPFileJob sends it. The range is taken, so that no later
        request can see it. */
    method SendFile(c: Slot, res: HttpResponse, keep: bool, ghost req: HttpRequest) returns (ghost ex: Exchange)
      requires Good({c}) && Calm(c) && Self(S(), c) in hist && res.filePath != ""
      requires Ready(app, H(c), req, res, keep, stopping) && conns[c].range == app.range(req)
      modifies `conns, `gens, `jobs, `ops, `fds, `inFlight, `duty, `hist, `shortages
      ensures Good({}) && Kept(old(S()), S(), c, {}) && Launched(c)
      ensures Still(old(hist), hist) && shortages >= old(shortages)
      ensures ex.keep == keep && ex.stopping == stopping && ex.answers == Some(old(|H(c).log|)) && Answered(app, req, ex)
      ensures shortages == old(shortages) ==> ex.bytes == FileBytes(app, res, app.range(req), ex.contents)
      ensures Underway(old(Self(S(), c)), old(conns[c].(keepAlive := keep, inFlight := true, range := None)), old(hist), ex,
                       shortages > old(shortages))
      ensures (c in duty ==> duty[c].file.Some?) && (c in conns ==> conns[c].range.None?)
    {
      hide Good, Kept, Ready, Still, Launched, Answered, FileAnswer, FileBytes;
      ghost var s := S();
      var range := conns[c].range;
      Claim(c, keep, None);
      ghost var s1 := S();
      ex := RunFile(c, res, keep, range, req);
      KeptTrans(s, s1, S(), c, {});
    }

    /** The file job is created and started. */
    method RunFile(c: Slot, res: HttpResponse, keep: bool, range: Option<RangeRequest.ByteRangeSpec>, ghost req: HttpRequest)
      returns (ghost ex: Exchange)
      requires Good({c}) && Calm(c) && conns[c].inFlight && Self(S(), c) in hist && res.filePath != ""
      requires Ready(app, H(c), req, res, keep, stopping) && range == app.range(req)
      modifies `conns, `gens, `jobs, `ops, `fds, `inFlight, `duty, `hist, `shortages
      ensures Good({}) && Kept(old(S()), S(), c, {}) && Launched(c)
      ensures Still(old(hist), hist) && shortages >= old(shortages)
      ensures ex.keep == keep && ex.stopping == stopping && ex.answers == Some(old(|H(c).log|)) && Answered(app, req, ex)
      ensures shortages == old(shortages) ==> ex.bytes == FileBytes(app, res, range, ex.contents)
      ensures Underway(old(Self(S(), c)), old(conns[c]), old(hist), ex, shortages > old(shortages))
      ensures c in duty ==> duty[c].file.Some?
    {
      hide Good, Kept, Ready, Still, Underway, GivenUp, Launched, Answered, FileAnswer, FileBytes, MayFollow, Quiet, FileReady, Home;
      ghost var s := S();
      StillSame(hist);
      var me := Owner(c, if c in gens then gens[c] else 0);
      var job := File(conns[c].clientFd, res, keep, Source(-1, [], 0, 0), me);
      FileHome(job);
      var f := TakeJob(job, c);
      ghost var s1 := S();
      if f.None? {
        assert s1 == s;
        ex := FileUnavailable(c, res, keep, range, req);
      } else {
        NewFileReady(f.value, c, req);
        ex := RunFileJob(f.value, c, range, req);
        KeptNewJob(s, s1, S(), c, f.value, {}, {f.value});
      }
    }

    /** A new file job produces an answer to the request. */
    method RunFileJob(f: JobId, c: Slot, range: Option<RangeRequest.ByteRangeSpec>, ghost req: HttpRequest) returns (ghost ex: Exchange)
      requires Good({c}) && FileReady(f, c, req) && jobs[f].was.source.fd < 0 && range == app.range(req)
      modifies `conns, `gens, `jobs, `ops, `fds, `inFlight, `duty, `hist, `shortages
      ensures Good({}) && Kept(old(S()), S(), c, {f}) && Launched(c) && Quiet(S(), {f})
      ensures Still(old(hist), hist) && shortages >= old(shortages)
      ensures ex == old(FileExchange(f, c, ex.contents, ex.bytes)) && Answered(app, req, ex)
      ensures shortages == old(shortages) ==> ex.bytes == FileBytes(app, old(jobs[f].was.response), range, ex.contents)
      ensures Underway(old(Self(S(), c)), old(conns[c]), old(hist), ex, shortages > old(shortages))
      ensures c in duty ==> duty[c].file == Some(f)
    {
      hide Good, Kept, Ready, Still, Underway, Launched, Answered, FileAnswer, FileBytes, MayFollow, Quiet;
      ghost var h, job := H(c), jobs[f].was;
      ex := StartFile(f, c, range, req);
      AnswerFollows(app, h, req, job.response, job.keep, stopping, ex.contents, ex.bytes);
    }

    /** No file job could be had: the response fails before it begins. */
    method FileUnavailable(c: Slot, res: HttpResponse, keep: bool, range: Option<RangeRequest.ByteRangeSpec>, ghost req: HttpRequest)
      returns (ghost ex: Exchange)
      requires Good({c}) && Calm(c) && conns[c].inFlight && Self(S(), c) in hist && res.filePath != ""
      requires Ready(app, H(c), req, res, keep, stopping) && range == app.range(req)
      modifies `conns, `gens, `jobs, `ops, `fds, `inFlight, `shortages
      ensures Good({}) && Kept(old(S()), S(), c, {}) && Launched(c) && c !in duty && shortages >= old(shortages)
      ensures ex.keep == keep && ex.stopping == stopping && ex.answers == Some(old(|H(c).log|)) && Answered(app, req, ex)
      ensures Underway(old(Self(S(), c)), old(conns[c]), hist, ex, true)
    {
      hide Good, Kept, Ready, Underway, GivenUp, Launched, Answered, FileAnswer, FileBytes, MayFollow;
      ghost var h, o, k := H(c), Self(S(), c), conns[c];
      PlannedAnswer(app, res, range, None);
      ex := Exchange(Some(|h.log|), keep, stopping, None, FileBytes(app, res, range, None));
      AnswerFollows(app, h, req, res, keep, stopping, ex.contents, ex.bytes);
      ConnectionError(c);
      Failed(o, k, hist, ex);
    }

    /** Stores connection fields that are only about requests, and the history that goes with them. */
    method Record(c: Slot, k: Conn, ghost h: Hist)
      requires Good({c}) && c in conns && Self(S(), c) in hist
      requires k == conns[c].(buffer := k.buffer, keepAlive := k.keepAlive, advertise := k.advertise, range := k.range)
      requires HistOk(app, h) && HistBase(h, k, DutyOf(S(), c))
      modifies `conns, `hist
      ensures conns == old(conns)[c := k] && hist == old(hist)[Self(S(), c) := h]
      ensures Good({c}) && Kept(old(S()), S(), c, {})
      ensures old(Settled(S(), c)) ==> Settled(S(), c)
    {
      hide Inv, HistsOk, AppOk, Kept, HistOk, HistBase, RunnerOk, FileOk;
      At(S(), c, {c});
      UpdateConn(S(), c, k);
      KeptConn(S(), c, k);
      HistUpdate(app, Proj(S()), Proj(S().(conns := conns[c := k])), hist, c, h);
      hist := hist[Self(S(), c) := h];
      conns := conns[c := k];
    }

    /** Connection `c` may read requests: it is open, or it is finishing a response. */
    ghost predicate Open(c: Slot)
      reads this
    {
      && c in conns && conns[c].readingActive && conns[c].clientFd >= 0
      && (conns[c].closePending ==> conns[c].inFlight)
      && Settled(S(), c) && Self(S(), c) in hist && HistCalm(H(c), conns[c], DutyOf(S(), c))
    }

    lemma Rest(c: Slot)
      requires Good({c}) && Open(c) && HistIdle(app, H(c), conns[c], DutyOf(S(), c))
      ensures Good({})
    {
      hide Inv, HistsOk, AppOk, HistIdle, HistCalm;
      Settle(S(), c);
      HistsSettle(app, Proj(S()), hist, c);
    }

    /** The history after the request at the front of the buffer is taken. */
    ghost function TakenOne(c: Slot): Hist
      reads this
      requires c in conns && Self(S(), c) in hist
      requires app.parse(conns[c].buffer).Success? && app.parse(conns[c].buffer).consumed <= |conns[c].buffer|
    {
      var r := app.parse(conns[c].buffer);
      H(c).(taken := H(c).taken + conns[c].buffer[..r.consumed], requests := H(c).requests + [r.request])
    }

    lemma TakingOne(c: Slot)
      requires Good({c}) && Open(c) && !conns[c].inFlight && app.parse(conns[c].buffer).Success?
      ensures app.parse(conns[c].buffer).consumed <= |conns[c].buffer| && c !in duty && Calm(c)
      ensures var r := app.parse(conns[c].buffer);
              && HistOk(app, TakenOne(c)) && Unanswered(TakenOne(c), r.request)
              && TakenOne(c).stream == TakenOne(c).taken + conns[c].buffer[r.consumed..]
    {
      hide Inv, HistsOk, HistOk, ConnOk;
      HistoryHere(c, {c});
      var h, buffer := H(c), conns[c].buffer;
      var n := app.parse(buffer).consumed;
      if h.log != [] {
        KeptIsAnswer(app, h);
      }
      Dispatched(app, h, buffer);
      assert buffer == buffer[..n] + buffer[n..];
      assert h.taken + (buffer[..n] + buffer[n..]) == (h.taken + buffer[..n]) + buffer[n..];
    }

    /** A complete request is taken out of the buffer; handleHttpRequest notes what it asks for. */
    method Dispatch(c: Slot) returns (req: HttpRequest)
      requires Good({c}) && Open(c) && !conns[c].inFlight && app.parse(conns[c].buffer).Success?
      modifies `conns, `hist
      ensures Good({c}) && Kept(old(S()), S(), c, {})
      ensures req == app.parse(old(conns[c].buffer)).request && Pending(c, app.route(req), Answer(req))
      ensures var b, n := old(conns[c].buffer), app.parse(old(conns[c].buffer)).consumed;
              n <= |b| && conns[c].buffer == b[n..]
      ensures Still(old(hist), hist)
      ensures Self(S(), c) in hist && H(c).requests == old(H(c).requests) + [req] && H(c).log == old(H(c).log)
    {
      hide Good, Kept, HistOk, Settled, HistCalm, Unanswered;
      TakingOne(c);
      var k, r := conns[c], app.parse(conns[c].buffer);
      req := r.request;
      Record(c, k.(buffer := k.buffer[r.consumed..], keepAlive := app.keep(req),
                   advertise := req.version != "HTTP/1.1", range := app.range(req)), TakenOne(c));
    }

    /** The reason a connection has for refusing what it holds. */
    ghost predicate Reason(c: Slot, reason: Refused)
      requires c in conns
      reads this
    {
      && reason.rest == conns[c].buffer
      && match reason
         case Malformed(rest) => app.parse(rest).BadRequest?
         case Oversize(rest, extra) => |rest| + |extra| > MAX_REQUEST_SIZE
    }

    /** sendErrorAndClose: nothing more is read from this connection. */
    method Refuse(c: Slot, ghost reason: Refused)
      requires Good({c}) && Open(c) && Reason(c, reason)
      modifies `conns, `hist
      ensures Good({c}) && Kept(old(S()), S(), c, {})
      ensures conns == old(conns)[c := old(conns[c]).(buffer := [], keepAlive := false, advertise := false)]
      ensures Self(S(), c) in hist
      ensures hist == old(Refusals(c, reason))
      ensures Still(old(hist), hist)
    {
      hide Inv, HistsOk, Kept, HistOk, AppOk, Settled;
      HistoryHere(c, {c});
      ghost var h := H(c);
      if h.refused.None? {
        RefusedOk(app, h, reason);
        h := h.(refused := Some(reason));
      }
      Record(c, conns[c].(buffer := [], keepAlive := false, advertise := false), h);
    }

    /** sendErrorAndClose: the reason is recorded once and what was buffered is dropped. With a
        response on the wire only the close is noted; otherwise the refusal is the last response. */
    method SendErrorAndClose(c: Slot, code: int, ghost reason: Refused) returns (ghost ex: Exchange)
      requires Good({c}) && Open(c) && Launched(c) && Reason(c, reason) && code == RefusalCode(reason)
      modifies `conns, `gens, `jobs, `ops, `fds, `inFlight, `duty, `hist, `shortages, `stopping
      ensures Good({}) && Kept(old(S()), S(), c, {}) && Launched(c)
      ensures Still(old(hist), hist) && shortages >= old(shortages)
      ensures c in conns ==> conns[c].buffer == []
      ensures old(conns[c].inFlight) ==>
                && hist == old(Refusals(c, reason)) && conns == old(conns)[c := old(Dropped(conns[c])).(closePending := true)]
      ensures !old(conns[c].inFlight) ==>
                && ex.answers.None? && IsRefusal(app, ex, code)
                && Underway(old(Self(S(), c)), old(Dropped(conns[c])).(inFlight := true), old(Refusals(c, reason)), ex,
                            shortages > old(shortages))
    {
      hide Good, Kept, HistBase, RunnerLaunched, RefusalCode, Still, IsRefusal;
      ghost var s, h := S(), hist;
      Refuse(c, reason);
      ghost var s1, h1 := S(), hist;
      StillSame(h1);
      KeptLaunched(s, s1, c);
      if conns[c].clientFd < 0 || conns[c].inFlight {
        CloseConnection(c);
        KeptLaunched(s1, S(), c);
        ex := Exchange(None, false, false, None, []);
      } else {
        NoFile(c, code);
        ex := SendResponse(c, app.refusal(code), Refusal(code));
      }
      KeptTrans(s, s1, S(), c, {});
      StillTrans(h, h1, hist);
    }

    lemma NoFile(c: Slot, code: int)
      requires Good({c})
      ensures forall keep, advertise :: app.stamp(app.refusal(code), keep, advertise).filePath == ""
    {
      hide Inv, HistsOk, Framing.Framed;
    }

    /** A connection that has dropped what it read. */
    function Dropped(k: Conn): Conn {
      k.(buffer := [], keepAlive := false, advertise := false)
    }

    /** The histories with the first reason for a refusal noted. */
    ghost function Refusals(c: Slot, reason: Refused): map<Owner, Hist>
      requires Self(S(), c) in hist
      reads this
    {
      hist[Self(S(), c) := H(c).(refused := if H(c).refused.Some? then H(c).refused else Some(reason))]
    }

    /** At most one request is taken; the next waits until its response is complete. */
    method ProcessHttpRequests(c: Slot)
      requires Good({c}) && Open(c) && Launched(c)
      modifies `conns, `gens, `jobs, `ops, `fds, `inFlight, `duty, `hist, `shortages, `stopping
      ensures Good({}) && Kept(old(S()), S(), c, {}) && Launched(c)
      ensures old(conns[c].inFlight || conns[c].buffer == [] || app.parse(conns[c].buffer).Incomplete?) ==>
                S() == old(S()) && stopping == old(stopping)
      ensures shortages == old(shortages) && old(!conns[c].inFlight && conns[c].buffer != [] && !app.parse(conns[c].buffer).Incomplete?) ==>
                && c in duty && Self(S(), c) == old(Self(S(), c)) && Self(S(), c) in hist
                && |H(c).log| == old(|H(c).log|) + 1
                && (if old(app.parse(conns[c].buffer).Success?)
                    then H(c).requests == old(H(c).requests) + [app.parse(old(conns[c].buffer)).request]
                    else H(c).refused == Some(Malformed(old(conns[c].buffer))))
      ensures Still(old(hist), hist)
      ensures shortages >= old(shortages)
    {
      hide Good, Kept, HistBase, Settled, HistCalm, Still;
      ghost var s, h := S(), hist;
      StillSame(h);
      KeptSame(s, c);
      if conns[c].inFlight || conns[c].clientFd < 0 || conns[c].buffer == [] {
        DutyIffFlight(c);
        Rest(c);
        return;
      }
      var r := app.parse(conns[c].buffer);
      match r {
        case Success(_, _) =>
          var req := Dispatch(c);
          ghost var s1, h1 := S(), hist;
          ghost var ex := SendResponse(c, app.route(req), Answer(req));
          KeptTrans(s, s1, S(), c, {});
          StillTrans(h, h1, hist);
        case Incomplete =>
          DutyIffFlight(c);
          Rest(c);
        case BadRequest =>
          NotRefused(c);
          ghost var ex := SendErrorAndClose(c, 400, Malformed(conns[c].buffer));
      }
    }

    lemma NotRefused(c: Slot)
      requires Open(c) && !conns[c].inFlight
      ensures H(c).refused.None?
    {
    }

    lemma DutyIffFlight(c: Slot)
      requires Open(c)
      ensures conns[c].inFlight <==> c in duty
    {
    }

    // -------------------------------------------------------------------------------------
    // Data arrives

    /** The idle wait is over: the timer is asked to stop, if that can be submitted. */
    method StopIdleWait(c: Slot)
      requires Good({}) && c in conns
      modifies `conns, `jobs, `ops, `inFlight, `shortages
      ensures Good({}) && Kept(old(S()), S(), c, {})
      ensures c in conns && conns[c] == old(conns[c]).(idleCancel := conns[c].idleCancel)
      ensures conns[c].idleCancel && !old(conns[c].idleCancel) ==> conns[c].idle.Some? && Asked(old(jobs), jobs, conns[c].idle.value)
      ensures shortages >= old(shortages)
    {
      hide Good, Kept, DutyOk;
      ghost var s := S();
      KeptSame(s, c);
      if conns[c].idle.Some? && !conns[c].idleCancel {
        Loosen(c);
        var ok := SubmitCancel(conns[c].idle.value, c);
        ghost var s1 := S();
        if ok {
          Here(c, {});
          Loosen(c);
          SetConn(c, conns[c].(idleCancel := true));
          KeptTrans(s, s1, S(), c, {});
        }
      }
    }

    /** The bytes join the request buffer. */
    method Receive(c: Slot, data: string)
      requires Good({c}) && Open(c)
      modifies `conns, `hist
      ensures Good({c}) && Kept(old(S()), S(), c, {}) && Open(c) && (old(Launched(c)) ==> Launched(c))
      ensures conns == old(conns)[c := old(conns[c]).(buffer := old(conns[c].buffer) + data)]
      ensures Moved(old(hist), hist, Self(S(), c), data, [])
    {
      hide Inv, HistsOk, Kept, HistOk, AppOk, Settled, RunnerLaunched;
      HistoryHere(c, {c});
      ghost var s := S();
      ghost var h := H(c).(stream := H(c).stream + data);
      ReceivedOk(app, H(c), data);
      assert h.refused.None? ==> h.stream == h.taken + (conns[c].buffer + data);
      Record(c, conns[c].(buffer := conns[c].buffer + data), h);
      if RunnerLaunched(s, c) {
        KeptLaunched(s, S(), c);
      }
    }

    lemma IsOpen(c: Slot)
      requires Good({}) && c in conns && conns[c].readingActive && conns[c].clientFd >= 0
      requires conns[c].closePending ==> conns[c].inFlight
      ensures Good({c}) && Open(c)
    {
      hide Good, HistOk, HistBase, ConnOk, DutyOk, HistCalm, Settled;
      Here(c, {});
      HistoryHere(c, {});
      Loosen(c);
      IdleIsCalm(c);
    }

    lemma IdleIsCalm(c: Slot)
      requires Self(S(), c) in hist && c in conns && HistIdle(app, H(c), conns[c], DutyOf(S(), c))
      ensures HistCalm(H(c), conns[c], DutyOf(S(), c))
    {
    }

    /** The connection still reads, and the bytes fit its buffer. */
    ghost predicate Takes(c: Slot, data: string)
      requires c in conns
      reads this
    {
      conns[c].clientFd >= 0 && |conns[c].buffer| + |data| <= MAX_REQUEST_SIZE
    }

    /** Bytes from the socket. Bytes for a connection that has already given up its descriptor
        are dropped; a request that outgrows the limit is refused. */
    method HandleDataReceived(c: Slot, data: string)
      requires Good({}) && c in conns && conns[c].readingActive
      requires conns[c].clientFd >= 0 && conns[c].closePending ==> conns[c].inFlight
      requires Launched(c)
      modifies `conns, `gens, `jobs, `ops, `fds, `inFlight, `duty, `hist, `shortages, `stopping
      ensures Good({}) && Kept(old(S()), S(), c, {}) && Launched(c)
      ensures Moved(old(hist), hist, old(Self(S(), c)), old(if Takes(c, data) then data else []), [])
      ensures shortages >= old(shortages)
    {
      hide Good, Kept, Open, RunnerLaunched, Still, Moved;
      ghost var s, h, me := S(), hist, Self(S(), c);
      StillSame(h);
      StillMoved(h, h, me);
      KeptSame(s, c);
      if conns[c].clientFd < 0 {
        return;
      }
      if |conns[c].buffer| + |data| > MAX_REQUEST_SIZE {
        IsOpen(c);
        if Text.Find(conns[c].buffer, Text.BLANK_LINE, 0) == Text.NPOS {
          ghost var ex := SendErrorAndClose(c, 431, Oversize(conns[c].buffer, data));
        } else {
          ghost var ex := SendErrorAndClose(c, 413, Oversize(conns[c].buffer, data));
        }
        StillMoved(h, hist, me);
        return;
      }
      StopIdleWait(c);
      ghost var s1 := S();
      KeptLaunched(s, s1, c);
      IsOpen(c);
      Receive(c, data);
      ghost var s2, h2 := S(), hist;
      ProcessHttpRequests(c);
      KeptTrans(s, s1, s2, c, {});
      KeptTrans(s, s2, S(), c, {});
      MovedThenStill(h, h2, hist, me, data, []);
    }

    // -------------------------------------------------------------------------------------
    // Responses that complete

    /** The job that was on the wire has ended; `rest` of the response is still owed. */
    ghost predicate Between(c: Slot, keep: bool, rest: string)
      reads this
    {
      && c in conns && c !in duty && conns[c].inFlight && conns[c].readingActive
      && (!conns[c].closePending ==> conns[c].read.Some?)
      && Self(S(), c) in hist
      && var h := H(c);
         && h.log != [] && h.log[|h.log| - 1].keep == keep && h.wire + rest == Flat(h.log)
         && (h.refused.Some? || |h.requests| == |h.log|)
         && (h.refused.Some? ==> conns[c].closePending || !keep)
    }

    /** Releases the response slot. */
    method EndResponse(c: Slot, ghost keep: bool)
      requires Good({c}) && Between(c, keep, [])
      modifies `conns
      ensures Good({c}) && Kept(old(S()), S(), c, {})
      ensures conns == old(conns)[c := old(conns[c]).(inFlight := false)]
      ensures keep && !conns[c].closePending ==> Open(c)
    {
      hide Good, Kept;
      Here(c, {c});
      SetConn(c, conns[c].(inFlight := false));
    }

    /** No close is pending and no complete request is buffered. */
    ghost predicate Quiescent(c: Slot)
      requires c in conns
      reads this
    {
      !conns[c].closePending && (conns[c].buffer == [] || app.parse(conns[c].buffer).Incomplete?)
    }

    /** The whole response is on the socket. A pending or announced close happens now; otherwise
        the next pipelined request is taken, or a new idle wait begins. */
    method OnResponseComplete(c: Slot, keep: bool)
      requires Good({c}) && Between(c, keep, [])
      modifies `conns, `gens, `jobs, `ops, `fds, `inFlight, `duty, `hist, `shortages, `stopping
      ensures Good({}) && Kept(old(S()), S(), c, {}) && Launched(c)
      ensures !stopping && keep && old(Quiescent(c)) ==> c in conns && !conns[c].closePending && !conns[c].inFlight
      ensures Still(old(hist), hist)
      ensures shortages >= old(shortages)
    {
      hide Good, Kept, Settled, HistCalm, Still;
      ghost var s := S();
      StillSame(hist);
      EndResponse(c, keep);
      ghost var s1 := S();
      var closing := conns[c].closePending || !keep;
      if !closing {
        closing := IsStopping();
      }
      if closing {
        CloseConnection(c);
      } else if conns[c].buffer != [] {
        ProcessHttpRequests(c);
      } else {
        NothingBuffered(c);
        ArmIdleTimeout(c);
      }
      KeptTrans(s, s1, S(), c, {});
    }

    lemma NothingBuffered(c: Slot)
      requires Good({c}) && Open(c) && conns[c].buffer == []
      ensures Good({})
    {
      hide Good, Settled, HistCalm;
      Rest(c);
    }

    /** A file response is complete: the connection is told, then the file job is freed. */
    method FileDone(f: JobId, c: Slot)
      requires Good({c}) && FileBusy(f, c) && jobs[f].was.source.fd < 0 && Between(c, jobs[f].was.keep, [])
      modifies `conns, `gens, `jobs, `ops, `fds, `inFlight, `duty, `hist, `shortages, `stopping
      ensures Good({}) && Kept(old(S()), S(), c, {f}) && f !in jobs && Launched(c)
      ensures Still(old(hist), hist)
      ensures !stopping && old(jobs[f].was.keep && Quiescent(c)) ==> c in conns && !conns[c].closePending && !conns[c].inFlight
      ensures shortages >= old(shortages)
    {
      hide Good, Kept, Unreferenced, Between, Still;
      ghost var s := S();
      OnResponseComplete(c, jobs[f].was.keep);
      ghost var s1 := S();
      KeptAt(s, s1, c, f);
      ResponderFree(f, c, {});
      Loosen(c);
      Deallocate(f, c);
      KeptWiden(s, s1, c, {}, {f});
      KeptTrans(s, s1, S(), c, {f});
    }

    /** The callbacks HTTPFileJob gives its SpliceFileJob. */
    method SpliceDone(f: JobId, c: Slot, notice: SpliceFile.Notice, ghost rest: string)
      requires Good({c}) && FileBusy(f, c) && Between(c, jobs[f].was.keep, rest) && (notice.Complete? ==> rest == [])
      modifies `conns, `gens, `jobs, `ops, `fds, `inFlight, `duty, `hist, `shortages, `stopping
      ensures Good({}) && Kept(old(S()), S(), c, {f}) && f !in jobs && Launched(c)
      ensures Still(old(hist), hist)
      ensures notice.Complete? && !stopping && old(jobs[f].was.keep && Quiescent(c)) ==>
                c in conns && !conns[c].closePending && !conns[c].inFlight
      ensures notice.Error? ==> c !in duty && GivenUp(c, old(conns[c]))
      ensures shortages >= old(shortages)
    {
      hide Good, Kept, HistOk, Still;
      StillSame(hist);
      if notice.Error? {
        FileFailed(f, c);
        return;
      }
      ghost var s := S();
      CloseSource(f, c);
      ghost var s1 := S();
      FileDone(f, c);
      KeptTrans(s, s1, S(), c, {f});
    }

    /** The response goes on with its next job; the log already has it. */
    method ResumeDuty(c: Slot, f: JobId, ghost d: Duty)
      requires Good({c}) && FileBusy(f, c) && Between(c, d.keep, d.rest)
      requires d.file == Some(f) && f != d.runner && d.runner in jobs && jobs[d.runner].Busy?
      requires RunnerOk(Core(jobs[d.runner]), d, conns[c].clientFd, Self(S(), c))
      requires FileOk(jobs[f].was, Core(jobs[d.runner]), d, conns[c].clientFd, Self(S(), c))
      modifies `jobs, `duty
      ensures Good({}) && duty == old(duty)[c := d] && jobs == old(jobs)[f := old(jobs[f].was)]
      ensures Kept(old(S()), S(), c, {f})
    {
      hide Inv, HistsOk, AppOk, HistOk, RunnerOk, FileOk, ConnOk, Kept;
      Install(S(), c, d, jobs[f].was);
      KeptInstalled(S(), c, d, jobs[f].was);
      HistResumed(app, Proj(S()), hist, c, d);
      duty := duty[c := d];
      jobs := jobs[f := jobs[f].was];
    }

    method SubmitSplice(j: JobId, c: Slot)
      requires Good({}) && c in duty && duty[c].runner == j && j in jobs && jobs[j].Busy? && Core(jobs[j]).Splice?
      requires !Core(jobs[j]).world.freed
      modifies `jobs, `ops, `inFlight
      ensures Good({}) && Kept(old(S()), S(), c, {j}) && jobs == old(jobs)[j := old(Core(jobs[j]))]
    {
      hide Inv, HistsOk, AppOk, Kept, SpliceFile.Inv;
      Weaken(S(), c);
      JobAt(S(), j, {});
      LaunchSplice(S(), j, c);
      ghost var n := |Core(jobs[j]).world.legs|;
      KeptJob(S(), j, Core(jobs[j]), n, c);
      inFlight := inFlight + |Core(jobs[j]).world.legs|;
      jobs := jobs[j := Core(jobs[j])];
      ops := ops[j := n];
    }

    /** A job whose callback has run is returned to its pool. */
    method FreeResponder(j: JobId, c: Slot)
      requires Good({}) && Launched(c) && j in jobs && jobs[j].Busy? && (Core(jobs[j]).Write? || Core(jobs[j]).Splice?)
      requires Core(jobs[j]).owner.slot == c
      modifies `jobs
      ensures Good({}) && Launched(c) && Kept(old(S()), S(), c, {j}) && jobs == old(jobs) - {j}
    {
      hide Good, Kept, Unreferenced, SpliceFile.Inv;
      ResponderFree(j, c, {});
      Loosen(c);
      Deallocate(j, c);
    }

    /** SpliceFileJob::start has run: the transfer is under way, or it ended at once. */
    method RunSplice(j: JobId, f: JobId, c: Slot)
      requires Good({c}) && FileBusy(f, c) && jobs[f].was.source.fd >= 0
      requires var src := jobs[f].was.source;
               && src.offset + src.length <= |src.content| && Between(c, jobs[f].was.keep, Part(src))
               && j in jobs && j != f && jobs[j].Busy? && jobs[j].was.Splice? && jobs[j].was.owner == Self(S(), c)
               && jobs[j].was.fd == conns[c].clientFd && jobs[j].was.file == f && jobs[j].was.src == src
               && SpliceFile.Inv(jobs[j].was.world, src.content, src.offset, src.length) && jobs[j].was.world.sent == []
               && (jobs[j].was.world.freed ==> |jobs[j].was.world.notices| == 1)
      modifies `conns, `gens, `jobs, `ops, `fds, `inFlight, `duty, `hist, `shortages, `stopping
      ensures Good({}) && Kept(old(S()), S(), c, {f, j}) && Launched(c) && Quiet(S(), {f, j})
      ensures Still(old(hist), hist)
      ensures !old(jobs[j].was.world.freed) ==>
                && conns == old(conns) && hist == old(hist) && shortages == old(shortages)
                && duty == old(duty)[c := Duty(j, Some(f), old(jobs[f].was.keep), Part(old(jobs[f].was.source)))]
                && j in jobs && jobs[j] == old(jobs[j].was) && f in jobs && jobs[f] == old(jobs[f].was)
                && Splicing(f, c, old(jobs[f].was.keep), old(jobs[f].was.source))
      ensures old(jobs[j].was.world.freed) ==> f !in jobs
      ensures old(jobs[j].was.world.freed && jobs[j].was.world.notices[0].Error?) ==> c !in duty && GivenUp(c, old(conns[c]))
      ensures old(jobs[j].was.world.freed && jobs[j].was.world.notices[0].Complete? && jobs[f].was.keep && Quiescent(c)) && !stopping ==>
                c in conns && !conns[c].closePending && !conns[c].inFlight
      ensures shortages >= old(shortages)
    {
      hide Good, Kept, Between, SpliceFile.Running, SpliceFile.Conserved, Still;
      ghost var s := S();
      StillSame(hist);
      var w, src := jobs[j].was.world, jobs[j].was.src;
      if w.freed {
        SpliceDone(f, c, w.notices[0], Part(src));
        ghost var s1 := S();
        KeptAlso(s, s1, c, {f}, j);
        FreeResponder(j, c);
        KeptWiden(s, s1, c, {f}, {f, j});
        KeptWiden(s1, S(), c, {j}, {f, j});
        KeptTrans(s, s1, S(), c, {f, j});
        StillGone(s1, S(), c, {j}, f);
      } else {
        ResumeDuty(c, f, Duty(j, Some(f), jobs[f].was.keep, Part(src)));
        ghost var s1 := S();
        SubmitSplice(j, c);
        KeptWiden(s, s1, c, {f}, {f, j});
        KeptWiden(s1, S(), c, {j}, {f, j});
        KeptTrans(s, s1, S(), c, {f, j});
        LaunchedQuiet(c);
      }
    }

    /** pipe2, and the submission entries of the first pair. */
    method PipeAndEntries() returns (pipeOk: bool, g: SpliceFile.Grants)
      modifies `shortages
      ensures S() == old(S()) && (forall x :: old(Good(x)) ==> Good(x))
      ensures if pipeOk && g.first && g.second then shortages == old(shortages) else shortages > old(shortages)
    {
      hide Inv, HistsOk, AppOk;
      pipeOk, g := *, *;
      if !pipeOk || !g.first || !g.second {
        shortages := shortages + 1;
      }
    }

    /** A splice of the part `src` of the file is on the wire, from its first byte. */
    ghost predicate Splicing(f: JobId, c: Slot, keep: bool, src: Source)
      requires src.offset + src.length <= |src.content|
      reads this
    {
      && c in duty && duty[c].file == Some(f) && duty[c].keep == keep && duty[c].rest == Part(src)
      && duty[c].runner in jobs
      && match jobs[duty[c].runner]
         case Splice(fd, file, part, w, o) =>
           file == f && part == src && o == Self(S(), c) && !w.freed && w.sent == [] && c in conns && fd == conns[c].clientFd
         case _ => false
    }

    /** HTTPFileJob::startSendingFile: the headers are on the socket. The splice takes over exactly
        where they ended; only a shortage ends the response, and an empty part is complete at once. */
    method StartSendingFile(f: JobId, c: Slot)
      requires Good({c}) && FileBusy(f, c) && jobs[f].was.source.fd >= 0
      requires var src := jobs[f].was.source;
               src.offset + src.length <= |src.content| && Between(c, jobs[f].was.keep, Part(src))
      modifies `conns, `gens, `jobs, `ops, `fds, `inFlight, `duty, `hist, `shortages, `stopping
      ensures Good({}) && Kept(old(S()), S(), c, {f}) && Launched(c) && Quiet(S(), {f})
      ensures Still(old(hist), hist) && shortages >= old(shortages)
      ensures f in jobs ==>
                Splicing(f, c, old(jobs[f].was.keep), old(jobs[f].was.source)) && conns == old(conns) && hist == old(hist)
      ensures old(jobs[f].was.source.length) > 0 && f !in jobs ==>
                shortages > old(shortages) && c !in duty && GivenUp(c, old(conns[c]))
      ensures old(jobs[f].was.source.length) == 0 ==> f !in jobs
      ensures old(jobs[f].was.source.length == 0 && jobs[f].was.keep && Quiescent(c)) && shortages == old(shortages) && !stopping ==>
                c in conns && !conns[c].closePending && !conns[c].inFlight
    {
      hide Good, Kept, SpliceFile.Inv, SpliceFile.Started, Still, GivenUp, Launched;
      ghost var s := S();
      var src := jobs[f].was.source;
      var pipeOk, g := PipeAndEntries();
      var w := SpliceFile.Started(src.offset, src.length, pipeOk, g);
      SpliceFile.StartedInv(src.content, src.offset, src.length, pipeOk, g);
      SpliceFile.StartedOutcome(src.offset, src.length, pipeOk, g);
      BeginSplice(f, c, w);
    }

    /** SpliceFileJob::createFromPool and start, with the outcome `w` of the start. */
    method BeginSplice(f: JobId, c: Slot, w: SpliceFile.World)
      requires Good({c}) && FileBusy(f, c) && jobs[f].was.source.fd >= 0
      requires var src := jobs[f].was.source;
               && src.offset + src.length <= |src.content| && Between(c, jobs[f].was.keep, Part(src))
               && SpliceFile.Inv(w, src.content, src.offset, src.length) && w.sent == [] && (w.freed ==> |w.notices| == 1)
      modifies `conns, `gens, `jobs, `ops, `fds, `inFlight, `duty, `hist, `shortages, `stopping
      ensures Good({}) && Kept(old(S()), S(), c, {f}) && Launched(c) && Quiet(S(), {f})
      ensures Still(old(hist), hist) && shortages >= old(shortages)
      ensures f in jobs ==>
                && !w.freed && conns == old(conns) && hist == old(hist)
                && Splicing(f, c, old(jobs[f].was.keep), old(jobs[f].was.source))
      ensures f !in jobs && !w.freed ==> shortages > old(shortages)
      ensures f !in jobs && (w.freed ==> w.notices[0].Error?) ==> c !in duty && GivenUp(c, old(conns[c]))
      ensures w.freed ==> f !in jobs
      ensures w.freed && w.notices[0].Complete? && old(jobs[f].was.keep && Quiescent(c)) && shortages == old(shortages) && !stopping ==>
                c in conns && !conns[c].closePending && !conns[c].inFlight
    {
      hide Good, Kept, SpliceFile.Inv, Still, GivenUp, Splicing, Part, Flat, Quiet;
      ghost var s := S();
      StillSame(hist);
      var src := jobs[f].was.source;
      var me := Owner(c, if c in gens then gens[c] else 0);
      var j := TakeJob(Splice(jobs[f].was.fd, f, src, w, me), c);
      ghost var s1 := S();
      if j.None? {
        assert s1 == s;
        FileFailed(f, c);
        Gone(S(), f);
      } else {
        RunSplice(j.value, f, c);
        KeptNewJob(s, s1, S(), c, j.value, {f}, {f, j.value});
      }
    }

    /** The completion callback of a WriteJob with fields `job`. */
    method WriteDone(job: Job, c: Slot, ghost keep: bool, ghost rest: string)
      requires Good({c}) && job.Write? && Between(c, keep, rest)
      requires match job.then_
               case ToConnection(k) => k == keep && rest == []
               case FileError(f) => rest == [] && FileBusy(f, c) && jobs[f].was.source.fd < 0 && jobs[f].was.keep == keep
               case FileHeaders(f) =>
                 && FileBusy(f, c) && jobs[f].was.source.fd >= 0 && jobs[f].was.keep == keep
                 && jobs[f].was.source.offset + jobs[f].was.source.length <= |jobs[f].was.source.content|
                 && rest == Part(jobs[f].was.source)
      modifies `conns, `gens, `jobs, `ops, `fds, `inFlight, `duty, `hist, `shortages, `stopping
      ensures Good({}) && Kept(old(S()), S(), c, FileSet(job)) && Launched(c) && Quiet(S(), FileSet(job))
      ensures Still(old(hist), hist)
      ensures shortages >= old(shortages)
    {
      hide Good, Kept, Between, FileBusy, Launched, Still;
      match job.then_ {
        case ToConnection(_) => OnResponseComplete(c, job.then_.keep);
        case FileHeaders(f) => StartSendingFile(f, c);
        case FileError(f) => FileDone(f, c);
      }
    }

    // -------------------------------------------------------------------------------------
    // Completions

    /** The kernel hands back the last completion of job `j`. */
    method TakeBack(j: JobId, ghost c: Slot)
      requires Good({}) && handling == 0 && j in jobs && ops[j] == 1 && !jobs[j].Busy? && Home(jobs[j]) in {None, Some(c)}
      modifies `jobs, `ops, `handling
      ensures Good({}) && handling == 1 && jobs == old(jobs)[j := Busy(old(jobs[j]))] && Kept(old(S()), S(), c, {j})
    {
      hide Inv, HistsOk, AppOk, Kept, Home;
      Weaken(S(), c);
      CheckOut(S(), j, c);
      KeptJob(S(), j, Busy(jobs[j]), 0, c);
      jobs := jobs[j := Busy(jobs[j])];
      ops := ops[j := 0];
      handling := 1;
    }

    /** The job on the wire records what the socket accepted. */
    method Progress(j: JobId, c: Slot, core: Job, ghost sent: string, ghost rest: string)
      requires Good({}) && c in duty && duty[c].runner == j && j in jobs && jobs[j].Busy? && c in conns
      requires (Core(jobs[j]).Write? && core.Write?) || (Core(jobs[j]).Splice? && core.Splice?)
      requires core.owner == Core(jobs[j]).owner && core.owner.slot == c && duty[c].rest == sent + rest
      requires RunnerOk(core, duty[c].(rest := rest), conns[c].clientFd, Self(S(), c))
      requires duty[c].file.Some? && duty[c].file.value in jobs ==>
                 FileOk(jobs[duty[c].file.value], core, duty[c].(rest := rest), conns[c].clientFd, Self(S(), c))
      modifies `jobs, `duty, `hist
      ensures Good({}) && Kept(old(S()), S(), c, {j})
      ensures jobs == old(jobs)[j := Busy(core)] && duty == old(duty)[c := old(duty[c]).(rest := rest)]
      ensures Moved(old(hist), hist, Self(S(), c), [], sent)
    {
      hide Inv, HistsOk, AppOk, Kept, RunnerOk, FileOk, Moved;
      Weaken(S(), c);
      Advance(S(), j, c, core, rest);
      KeptAdvance(S(), j, core, c, duty[c].(rest := rest));
      HistSent(app, Proj(S()), hist, c, sent, rest);
      ghost var h := H(c);
      hist := hist[Self(S(), c) := h.(wire := h.wire + sent)];
      duty := duty[c := duty[c].(rest := rest)];
      jobs := jobs[j := Busy(core)];
    }

    /** The job on the wire is done; what its callback may rely on. */
    method EndDuty(j: JobId, c: Slot)
      requires Good({}) && c in duty && duty[c].runner == j && j in jobs && jobs[j].Busy?
      modifies `duty, `jobs
      ensures Good({c}) && duty == old(duty) - {c} && old(DutyOk(S(), c)) && Between(c, old(duty[c].keep), old(duty[c].rest))
      ensures Kept(old(S()), S(), c, old(Refs(duty[c]))) && FileOf(old(Core(jobs[j]))) == old(duty[c].file)
      ensures j in jobs && jobs[j] == old(jobs[j])
      ensures var file := FileOf(old(Core(jobs[j])));
              file.Some? ==> file.value in old(jobs) && file.value in jobs && jobs[file.value] == Busy(old(jobs)[file.value])
    {
      hide Good, Kept, HistOk, RunnerOk, FileOk;
      Here(c, {});
      HistoryHere(c, {});
      Loosen(c);
      RetireDuty(j, c);
    }

    /** The bytes a completion says the socket accepted. */
    ghost function Sends(job: Job, res: int): string {
      match job
      case Write(_, data, written, _, _) => if 0 <= res <= |data| - written then data[written..written + res] else []
      case Splice(_, _, src, w, _) =>
        if SpliceFile.KernelAllows(w, src.content, res) && |w.sent| <= |SpliceFile.SentAfter(w, src.content, res)|
        then SpliceFile.SentAfter(w, src.content, res)[|w.sent|..] else []
      case _ => []
    }

    /** The bytes a completion delivers to the connection its job was armed for. */
    ghost function Gets(job: Job, cqe: Cqe): string
      reads this
    {
      if job.Recv? && cqe.res > 0 && IsValid(job.owner) && Takes(job.owner.slot, cqe.data) then cqe.data else []
    }

    // A handler returns whether the completion loop is to free the job.

    /** A WriteJob failed: its error callback runs. */
    method WriteBroke(j: JobId, c: Slot)
      requires Good({}) && c in duty && duty[c].runner == j && j in jobs && jobs[j].Busy? && Core(jobs[j]).Write?
      modifies `conns, `gens, `jobs, `ops, `fds, `inFlight, `duty, `shortages
      ensures Good({}) && Launched(c) && Kept(old(S()), S(), c, old(Refs(duty[c])))
      ensures Quiet(S(), old(FileSet(Core(jobs[j])))) && j in jobs && jobs[j] == old(jobs[j])
      ensures shortages >= old(shortages)
    {
      hide Good, Kept, Between, RunnerOk, ConnOk;
      ghost var s, x := S(), Refs(duty[c]);
      var job := Core(jobs[j]);
      EndDuty(j, c);
      ghost var s1 := S();
      assert conns[c].inFlight by {
        BetweenHere(c, old(duty[c].keep), old(duty[c].rest));
      }
      WriteFailed(job, c);
      KeptAlso(s1, S(), c, FileSet(job), j);
      KeptWiden(s1, S(), c, FileSet(job), x);
      KeptTrans(s, s1, S(), c, x);
    }

    lemma BetweenHere(c: Slot, keep: bool, rest: string)
      requires Between(c, keep, rest)
      ensures c in conns && c !in duty && conns[c].inFlight
    {
    }

    /** A WriteJob has written everything: its completion callback runs. */
    method WriteFinished(j: JobId, c: Slot)
      requires Good({}) && c in duty && duty[c].runner == j && j in jobs && jobs[j].Busy? && Core(jobs[j]).Write?
      requires Core(jobs[j]).written == |Core(jobs[j]).data|
      modifies `conns, `gens, `jobs, `ops, `fds, `inFlight, `duty, `hist, `shortages, `stopping
      ensures Good({}) && Launched(c) && Kept(old(S()), S(), c, old(Refs(duty[c])))
      ensures Quiet(S(), old(FileSet(Core(jobs[j])))) && j in jobs && jobs[j] == old(jobs[j])
      ensures Still(old(hist), hist)
      ensures shortages >= old(shortages)
    {
      hide Good, Kept, Between, ConnOk, Launched, Settled, Still;
      ghost var s, x := S(), Refs(duty[c]);
      var job := Core(jobs[j]);
      Here(c, {});
      assert job.data[job.written..] == [];
      assert forall p: string :: [] + p == p;
      EndDuty(j, c);
      ghost var s1 := S();
      WriteDone(job, c, old(duty[c].keep), old(duty[c].rest));
      KeptAlso(s1, S(), c, FileSet(job), j);
      KeptWiden(s1, S(), c, FileSet(job), x);
      KeptTrans(s, s1, S(), c, x);
    }

    /** The socket took `res` bytes of the write. */
    method WroteSome(j: JobId, c: Slot, res: nat)
      requires Good({}) && c in duty && duty[c].runner == j && j in jobs && jobs[j].Busy? && Core(jobs[j]).Write?
      requires Core(jobs[j]).owner.slot == c && Core(jobs[j]).written + res <= |Core(jobs[j]).data|
      modifies `jobs, `duty, `hist
      ensures Good({}) && Kept(old(S()), S(), c, {j}) && c in duty && duty[c].runner == j && Refs(duty[c]) == old(Refs(duty[c]))
      ensures j in jobs && jobs[j] == Busy(old(Core(jobs[j])).(written := old(Core(jobs[j]).written) + res))
      ensures Moved(old(hist), hist, Self(S(), c), [], old(Core(jobs[j]).data[Core(jobs[j]).written..Core(jobs[j]).written + res]))
    {
      hide Good, Kept, ConnOk, Settled, SpliceFile.Inv, Moved;
      Here(c, {});
      var job := Core(jobs[j]);
      var n := job.written + res;
      var core := job.(written := n);
      ghost var sent := job.data[job.written..n];
      assert job.data[job.written..] == sent + job.data[n..];
      ghost var tail := if job.then_.FileHeaders? then Part(jobs[job.then_.file].source) else [];
      assert sent + job.data[n..] + tail == sent + (job.data[n..] + tail);
      assert job.data[n..] + [] == job.data[n..];
      Progress(j, c, core, sent, job.data[n..] + tail);
    }

    /** Bytes were accepted: the write completes, or goes on with the rest. */
    method WriteWent(j: JobId, c: Slot, res: nat) returns (free: bool)
      requires Good({}) && c in duty && duty[c].runner == j && j in jobs && jobs[j].Busy? && Core(jobs[j]).Write?
      requires Core(jobs[j]).owner.slot == c && Core(jobs[j]).written + res <= |Core(jobs[j]).data|
      modifies `conns, `gens, `jobs, `ops, `fds, `inFlight, `duty, `hist, `shortages, `stopping
      ensures Good({}) && Launched(c) && Kept(old(S()), S(), c, old(Refs(duty[c])))
      ensures Quiet(S(), old(FileSet(Core(jobs[j]))))
      ensures free <==> old(Core(jobs[j]).written) + res == old(|Core(jobs[j]).data|)
      ensures if free then j in jobs && jobs[j].Busy? && Core(jobs[j]).Write? && Core(jobs[j]).owner.slot == c else Quiet(S(), {j})
      ensures Moved(old(hist), hist, old(Self(S(), c)), [], old(Sends(Core(jobs[j]), res)))
      ensures shortages >= old(shortages)
    {
      hide Good, Kept, Launched, DutyOk, Still, Moved;
      ghost var s, x, h, me := S(), Refs(duty[c]), hist, Self(S(), c);
      var job := Core(jobs[j]);
      FileInRefs(j, c);
      WroteSome(j, c, res);
      ghost var s1, h1 := S(), hist;
      StillSame(h1);
      KeptWiden(s, s1, c, {j}, x);
      if job.written + res >= |job.data| {
        WriteFinished(j, c);
        free := true;
      } else {
        SubmitWrite(j, c);
        free := false;
      }
      KeptTrans(s, s1, S(), c, x);
      MovedThenStill(h, h1, hist, me, [], Sends(job, res));
    }

    lemma FileInRefs(j: JobId, c: Slot)
      requires Good({}) && c in duty && duty[c].runner == j && j in jobs && Core(jobs[j]).Write?
      ensures Refs(duty[c]) == {j} + FileSet(Core(jobs[j])) && c in conns
    {
      hide Good, ConnOk, Settled, FileOk;
      Here(c, {});
    }

    method OnWrite(j: JobId, c: Slot, res: int) returns (free: bool)
      requires Good({}) && handling == 0 && j in jobs && jobs[j].Write? && jobs[j].owner.slot == c
      requires res <= |jobs[j].data| - jobs[j].written
      modifies this
      ensures Good({}) && handling == 1 && Launched(c) && Kept(old(S()), S(), c, old({j} + FileSet(jobs[j])))
      ensures Quiet(S(), old(FileSet(jobs[j])))
      ensures if free then j in jobs && jobs[j].Busy? && Core(jobs[j]).Write? && Core(jobs[j]).owner.slot == c else Quiet(S(), {j})
      ensures free <==> res < 0 || old(jobs[j].written) + res == old(|jobs[j].data|)
      ensures Moved(old(hist), hist, old(jobs[j].owner), [], old(Sends(jobs[j], res)))
    {
      hide Good, Kept, Launched, DutyOk, Still, Moved;
      ghost var s, x, h := S(), {j} + FileSet(jobs[j]), hist;
      WriterHere(j, c);
      TakeBack(j, c);
      ghost var s1 := S();
      KeptWiden(s, s1, c, {j}, x);
      if res < 0 {
        WriteBroke(j, c);
        StillSame(h);
        StillMoved(h, h, old(jobs[j].owner));
        free := true;
      } else {
        free := WriteWent(j, c, res);
      }
      KeptTrans(s, s1, S(), c, x);
    }

    lemma WriterHere(j: JobId, c: Slot)
      requires Good({}) && j in jobs && (jobs[j].Write? || jobs[j].Splice?) && jobs[j].owner.slot == c
      ensures c in duty && c in conns && duty[c].runner == j && Refs(duty[c]) == {j} + FileSet(jobs[j])
      ensures ops[j] == if jobs[j].Write? then 1 else |jobs[j].world.legs|
      ensures DutyOk(S(), c) && jobs[j].owner == Self(S(), c) && (jobs[j].Splice? ==> !jobs[j].world.freed)
    {
      hide HistsOk, AppOk, Inv, ConnOk, Settled, SpliceFile.Inv;
      JobAt(S(), j, {});
      At(S(), c, {});
    }

    /** A splice completion that leaves the transfer running. */
    method SpliceOn(j: JobId, c: Slot, w: SpliceFile.World, ghost sent: string, ghost rest: string)
      requires Good({}) && handling == 0 && j in jobs && jobs[j].Splice? && jobs[j].owner.slot == c && !w.freed
      requires c in duty && c in conns && duty[c].runner == j && duty[c].rest == sent + rest && ops[j] > 0
      requires ops[j] == |jobs[j].world.legs|
      requires RunnerOk(jobs[j].(world := w), duty[c].(rest := rest), conns[c].clientFd, Self(S(), c))
      modifies `jobs, `ops, `duty, `hist, `inFlight, `handling
      ensures Good({}) && handling == 1 && Kept(old(S()), S(), c, {j})
      ensures duty == old(duty)[c := old(duty[c]).(rest := rest)] && jobs == old(jobs)[j := old(jobs[j]).(world := w)]
      ensures Moved(old(hist), hist, Self(S(), c), [], sent)
    {
      hide Inv, HistsOk, AppOk, Kept, RunnerOk, Moved, SpliceFile.Inv, HistOk;
      ghost var s, d := S(), duty[c].(rest := rest);
      ghost var job, n := jobs[j].(world := w), |w.legs|;
      ghost var s' := s.(jobs := s.jobs[j := job], ops := s.ops[j := n], duty := s.duty[c := d]);
      Weaken(s, c);
      SpliceAdvance(s, j, c, w, rest);
      KeptSplice(s, j, job, n, c, d);
      HistSent(app, Proj(s), hist, c, sent, rest);
      assert Proj(s') == Proj(s).(duty := s.duty[c := d]);
      ghost var h := H(c);
      hist := hist[Self(s, c) := h.(wire := h.wire + sent)];
      duty := s'.duty;
      inFlight := inFlight + (|w.legs| - (|jobs[j].world.legs| - 1));
      ops := s'.ops;
      jobs := jobs[j := jobs[j].(world := w)];
      handling := 1;
      assert S() == s';
    }

    /** The transfer is over: the splice's callback runs. */
    method SpliceFinished(j: JobId, c: Slot)
      requires Good({}) && c in duty && duty[c].runner == j && j in jobs && jobs[j].Busy? && Core(jobs[j]).Splice?
      requires |Core(jobs[j]).world.notices| == 1 && (Core(jobs[j]).world.notices[0].Complete? ==> duty[c].rest == [])
      modifies `conns, `gens, `jobs, `ops, `fds, `inFlight, `duty, `hist, `shortages, `stopping
      ensures Good({}) && Launched(c) && Kept(old(S()), S(), c, old(Refs(duty[c])))
      ensures Quiet(S(), old(FileSet(Core(jobs[j])))) && j in jobs && jobs[j] == old(jobs[j])
      ensures Still(old(hist), hist)
      ensures shortages >= old(shortages)
    {
      hide Good, Kept, Between, ConnOk, Launched, Settled, SpliceFile.Inv, Still;
      ghost var s, x := S(), Refs(duty[c]);
      var job := Core(jobs[j]);
      EndDuty(j, c);
      ghost var s1 := S();
      assert c in conns by {
        BetweenHere(c, old(duty[c].keep), old(duty[c].rest));
      }
      SpliceDone(job.file, c, job.world.notices[0], old(duty[c].rest));
      KeptAlso(s1, S(), c, FileSet(job), j);
      KeptWiden(s1, S(), c, FileSet(job), x);
      KeptTrans(s, s1, S(), c, x);
    }

    /** A splice completion that ends the transfer, successfully or not. */
    method SpliceEnded(j: JobId, c: Slot, w: SpliceFile.World, ghost sent: string, ghost rest: string)
      requires Good({}) && handling == 0 && j in jobs && jobs[j].Splice? && jobs[j].owner.slot == c && ops[j] == 1
      requires c in duty && c in conns && duty[c].runner == j && duty[c].rest == sent + rest && DutyOk(S(), c)
      requires RunnerOk(jobs[j].(world := w), duty[c].(rest := rest), conns[c].clientFd, Self(S(), c))
      requires |w.notices| == 1 && (w.notices[0].Complete? ==> rest == [])
      modifies this
      ensures Good({}) && handling == 1 && Launched(c) && Kept(old(S()), S(), c, old(Refs(duty[c])))
      ensures Quiet(S(), old(FileSet(jobs[j])))
      ensures j in jobs && jobs[j].Busy? && Core(jobs[j]).Splice? && Core(jobs[j]).owner.slot == c
      ensures Moved(old(hist), hist, old(Self(S(), c)), [], sent)
    {
      hide Good, Kept, ConnOk, Settled, Launched, SpliceFile.Inv, Still, Moved;
      ghost var s, x, h, me := S(), Refs(duty[c]), hist, Self(S(), c);
      var core := jobs[j].(world := w);
      TakeBack(j, c);
      ghost var s1 := S();
      Progress(j, c, core, sent, rest);
      ghost var s2, h2 := S(), hist;
      KeptTrans(s, s1, s2, c, {j});
      KeptWiden(s, s2, c, {j}, x);
      SpliceFinished(j, c);
      KeptTrans(s, s2, S(), c, x);
      MovedThenStill(h, h2, hist, me, [], sent);
    }

    method OnSplice(j: JobId, c: Slot, res: int, g: SpliceFile.Grants) returns (free: bool)
      requires Good({}) && handling == 0 && j in jobs && jobs[j].Splice? && jobs[j].owner.slot == c
      requires SpliceFile.KernelAllows(jobs[j].world, jobs[j].src.content, res)
      modifies this
      ensures Good({}) && handling == 1 && Launched(c) && Kept(old(S()), S(), c, old({j} + FileSet(jobs[j])))
      ensures Quiet(S(), old(FileSet(jobs[j])))
      ensures if free then j in jobs && jobs[j].Busy? && Core(jobs[j]).Splice? && Core(jobs[j]).owner.slot == c else Quiet(S(), {j})
      ensures Moved(old(hist), hist, old(jobs[j].owner), [], old(Sends(jobs[j], res)))
    {
      hide Good, Kept, ConnOk, SpliceFile.Inv, SpliceFile.Step, SpliceFile.KernelAllows, Settled, Moved;
      ghost var s, x := S(), {j} + FileSet(jobs[j]);
      WriterHere(j, c);
      var src, w := jobs[j].src, jobs[j].world;
      SpliceFile.StepInv(w, src.content, src.offset, src.length, res, g);
      SpliceFile.StepSends(w, src.content, src.offset, src.length, res, g);
      var w' := SpliceFile.Step(w, src.content, res, g);
      ghost var sent, rest := w'.sent[|w.sent|..], Part(src)[|w'.sent|..];
      Cut(w.sent, w'.sent, Part(src), duty[c].rest);
      if w'.freed {
        SpliceEnded(j, c, w', sent, rest);
        free := true;
      } else {
        SpliceOn(j, c, w', sent, rest);
        KeptWiden(s, S(), c, {j}, x);
        LaunchedQuiet(c);
        free := false;
      }
    }

    predicate IsValid(o: Owner)
      reads this
    {
      o.slot in conns && (if o.slot in gens then gens[o.slot] else 0) == o.gen
    }

    /** An armed receive is the one its connection reads from, until the connection gives up its
        descriptor. */
    lemma ReaderHere(j: JobId, c: Slot)
      requires Good({}) && j in jobs && jobs[j].Recv? && jobs[j].owner.slot == c
      ensures ops[j] == 1 && (c in duty ==> duty[c].runner != j)
      ensures IsValid(jobs[j].owner) ==>
                && conns[c].readingActive && (conns[c].clientFd >= 0 ==> conns[c].read == Some(j))
                && (conns[c].clientFd >= 0 && conns[c].closePending ==> conns[c].inFlight)
    {
      hide Inv, HistsOk, AppOk, SpliceFile.Inv;
      JobAt(S(), j, {});
      At(S(), c, {});
    }

    /** Once its connection has dropped it, or is gone, nothing refers to a receive or timer. */
    lemma IdlerFree(j: JobId, c: Slot)
      requires Good({}) && j in jobs && jobs[j].Busy? && (jobs[j].was.Recv? || jobs[j].was.Timer?)
      requires IsValid(jobs[j].was.owner) && jobs[j].was.owner.slot == c ==> conns[c].read != Some(j) && conns[c].idle != Some(j)
      ensures Unreferenced(S(), j, c)
    {
      hide Good, Settled, SpliceFile.Inv;
      Here(c, {});
    }

    /** onError, and the job's cleanup: its connection, if it still exists, stops reading. */
    method RecvEnded(j: JobId, c: Slot)
      requires Good({}) && Launched(c) && j in jobs && jobs[j].Busy? && jobs[j].was.Recv? && jobs[j].was.owner.slot == c
      requires IsValid(jobs[j].was.owner) ==> conns[c].readingActive && (conns[c].clientFd >= 0 ==> conns[c].read in {None, Some(j)})
      modifies `conns, `gens, `jobs, `ops, `fds, `inFlight, `shortages
      ensures Good({}) && Launched(c) && Kept(old(S()), S(), c, {})
      ensures old(!IsValid(jobs[j].was.owner)) ==> S() == old(S())
      ensures j in jobs && jobs[j] == old(jobs[j]) && Unreferenced(S(), j, c)
      ensures shortages >= old(shortages)
    {
      hide Good, Kept, RunnerLaunched, Unreferenced;
      ghost var s := S();
      KeptSame(s, c);
      if IsValid(jobs[j].was.owner) {
        Here(c, {});
        HandleReadError(c);
        KeptAt(s, S(), c, j);
        KeptLaunched(s, S(), c);
        Here(c, {});
      }
      IdlerFree(j, c);
    }

    method OnRecv(j: JobId, c: Slot, cqe: Cqe) returns (free: bool)
      requires Good({}) && Launched(c) && handling == 0 && j in jobs && jobs[j].Recv? && jobs[j].owner.slot == c
      requires KernelMay(jobs[j], cqe)
      modifies this
      ensures Good({}) && handling == (if cqe.more then 0 else 1) && Launched(c) && Kept(old(S()), S(), c, {j})
      ensures old(!IsValid(jobs[j].owner)) ==> SameSlot(old(S()), S(), c)
      ensures !cqe.more && old(IsValid(jobs[j].owner) && conns[c].closePending) ==> free
      ensures cqe.more ==> !free
      ensures if free then j in jobs && jobs[j] == Busy(old(jobs[j])) && Unreferenced(S(), j, c) else Quiet(S(), {j})
      ensures Moved(old(hist), hist, old(jobs[j].owner), old(Gets(jobs[j], cqe)), [])
    {
      hide Good, Kept, RunnerLaunched, Unreferenced, Still, Moved;
      ghost var s, h := S(), hist;
      StillSame(h);
      StillMoved(h, h, jobs[j].owner);
      ReaderHere(j, c);
      if cqe.more {
        if IsValid(jobs[j].owner) {
          assert jobs[j].owner == Self(S(), c);
          HandleDataReceived(c, cqe.data);
        }
        KeptSame(s, c);
        KeptAlso(s, S(), c, {}, j);
        KeptWiden(s, S(), c, {}, {j});
        return false;
      }
      TakeBack(j, c);
      ghost var s1 := S();
      StillLaunched(s, s1, c, j);
      if cqe.res > 0 {
        free := RecvLast(j, c, cqe.data);
      } else {
        RecvEnded(j, c);
        KeptWiden(s1, S(), c, {}, {j});
        free := true;
      }
      KeptTrans(s, s1, S(), c, {j});
    }

    /** The kernel ended the multishot on a completion that carried data: it is armed again in
        place, or reported as ended. */
    method RecvLast(j: JobId, c: Slot, data: string) returns (free: bool)
      requires Good({}) && Launched(c) && j in jobs && jobs[j].Busy? && jobs[j].was.Recv? && jobs[j].was.owner.slot == c
      requires IsValid(jobs[j].was.owner) ==>
                 && conns[c].readingActive && (conns[c].clientFd >= 0 ==> conns[c].read == Some(j))
                 && (conns[c].clientFd >= 0 && conns[c].closePending ==> conns[c].inFlight)
      modifies `conns, `gens, `jobs, `ops, `fds, `inFlight, `duty, `hist, `shortages, `stopping
      ensures Good({}) && Launched(c) && Kept(old(S()), S(), c, {j})
      ensures old(!IsValid(jobs[j].was.owner)) ==> SameSlot(old(S()), S(), c)
      ensures old(IsValid(jobs[j].was.owner) && conns[c].closePending) ==> free
      ensures if free then j in jobs && jobs[j] == old(jobs[j]) && Unreferenced(S(), j, c) else Quiet(S(), {j})
      ensures Moved(old(hist), hist, old(jobs[j].was.owner), old(if IsValid(jobs[j].was.owner) && Takes(c, data) then data else []), [])
      ensures shortages >= old(shortages)
    {
      hide Good, Kept, RunnerLaunched, Unreferenced, Still, Moved, Takes;
      ghost var s, h := S(), hist;
      StillSame(h);
      StillMoved(h, h, jobs[j].was.owner);
      KeptSame(s, c);
      var o := jobs[j].was.owner;
      if IsValid(o) {
        assert o == Self(S(), c);
        HandleDataReceived(c, data);
      }
      ghost var s1 := S();
      KeptAt(s, s1, c, j);
      SameReader(s, s1, c, o, j);
      KeptWiden(s, s1, c, {}, {j});
      if IsValid(o) && conns[c].clientFd >= 0 && !conns[c].closePending && conns[c].readingActive && conns[c].read.Some? {
        var ok := GetSqe();
        if ok {
          RearmRead(j, c);
          KeptTrans(s, s1, S(), c, {j});
          return false;
        }
      }
      RecvEnded(j, c);
      KeptWiden(s1, S(), c, {}, {j});
      KeptTrans(s, s1, S(), c, {j});
      return true;
    }

    method RearmRead(j: JobId, c: Slot)
      requires Good({}) && Launched(c) && j in jobs && jobs[j].Busy? && jobs[j].was.Recv? && jobs[j].was.owner == Self(S(), c)
      requires c in conns && conns[c].read == Some(j)
      modifies `jobs, `ops, `inFlight
      ensures Good({}) && Launched(c) && Kept(old(S()), S(), c, {j}) && Quiet(S(), {j})
    {
      hide Inv, HistsOk, AppOk, Kept;
      Weaken(S(), c);
      JobAt(S(), j, {});
      Rearm(S(), j, c);
      KeptJob(S(), j, Core(jobs[j]), 1, c);
      jobs := jobs[j := Core(jobs[j])];
      ops := ops[j := 1];
      inFlight := inFlight + 1;
    }

    /** IdleTimeoutJob: delivered only to the connection it was armed for. */
    method OnTimer(j: JobId, c: Slot, res: int)
      requires Good({}) && Launched(c) && handling == 0 && j in jobs && jobs[j].Timer? && jobs[j].owner.slot == c
      modifies this
      ensures Good({}) && handling == 1 && Launched(c) && Kept(old(S()), S(), c, {j})
      ensures old(!IsValid(jobs[j].owner) || conns[c].idle != Some(j)) ==> SameSlot(old(S()), S(), c)
      ensures j in jobs && jobs[j] == Busy(old(jobs[j])) && Unreferenced(S(), j, c)
      ensures hist == old(hist)
    {
      hide Good, Kept, RunnerLaunched, Unreferenced;
      ghost var s := S();
      TimerHere(j, c);
      TakeBack(j, c);
      ghost var s1 := S();
      KeptSame(s1, c);
      StillLaunched(s, s1, c, j);
      if IsValid(jobs[j].was.owner) {
        HandleIdleTimeout(c, j, res);
      }
      KeptAt(s1, S(), c, j);
      KeptLaunched(s1, S(), c);
      Here(c, {});
      IdlerFree(j, c);
      KeptWiden(s1, S(), c, {}, {j});
      KeptTrans(s, s1, S(), c, {j});
    }

    lemma TimerHere(j: JobId, c: Slot)
      requires Good({}) && j in jobs && (jobs[j].Timer? || jobs[j].Cancel?)
      ensures ops[j] == 1 && (c in duty ==> duty[c].runner != j)
    {
      hide Inv, HistsOk, AppOk, SpliceFile.Inv;
      JobAt(S(), j, {});
      At(S(), c, {});
    }

    /** CancelJob: whatever the kernel says, it is only freed. */
    method OnCancel(j: JobId, ghost c: Slot)
      requires Good({}) && Launched(c) && handling == 0 && j in jobs && jobs[j].Cancel?
      modifies this
      ensures Good({}) && handling == 1 && Launched(c) && Kept(old(S()), S(), c, {j}) && SameSlot(old(S()), S(), c)
      ensures j in jobs && jobs[j] == Busy(old(jobs[j])) && Unreferenced(S(), j, c)
      ensures hist == old(hist)
    {
      hide Good, Kept, RunnerLaunched;
      ghost var s := S();
      TimerHere(j, c);
      TakeBack(j, c);
      StillLaunched(s, S(), c, j);
      ResponderFree(j, c, {});
    }

    /** The end of Server::handleCompletion: the operation is no longer counted, and a finished
        job is returned to its pool. */
    method Finish(j: JobId, c: Slot, free: bool, ghost s: State, ghost x: set<JobId>)
      requires Good({}) && handling == 1 && j in x && Kept(s, S(), c, x) && Quiet(S(), x - {j}) && NoneBusy(s)
      requires if free then
                 j in jobs && jobs[j].Busy? && Home(Core(jobs[j])) in {None, Some(c)} && Unreferenced(S(), j, c)
               else Quiet(S(), {j})
      modifies `jobs, `inFlight, `handling
      ensures Idle() && Kept(s, S(), c, x) && (free ==> jobs == old(jobs) - {j}) && (!free ==> jobs == old(jobs))
    {
      hide Inv, HistsOk, AppOk, Kept, Unreferenced, NoneBusy, Quiet;
      ghost var s1 := S();
      inFlight := inFlight - 1;
      handling := 0;
      if free {
        Loosen(c);
        Deallocate(j, c);
        KeptWiden(s1, S(), c, {j}, x);
        KeptTrans(s, s1, S(), c, x);
        QuietAfter(s1, S(), x, j);
      } else {
        QuietWhole(S(), x, j);
      }
      AllDone(s, S(), c, x);
    }

    /** The ring between two completions. */
    ghost predicate Idle()
      reads this
    {
      Good({}) && handling == 0 && NoneBusy(S())
    }

    lemma IdleLaunched(c: Slot)
      requires Idle()
      ensures Launched(c)
    {
      hide Good, RunnerOk, ConnOk, Settled;
      Here(c, {});
    }

    /** What a completion of job `job` may disturb. */
    function Reach(j: JobId, job: Job): set<JobId> {
      {j} + FileSet(job)
    }

    /** Who waits for job `j`, and that every closing connection had started reading. */
    lemma WhoTracks(j: JobId)
      requires Good({})
      ensures TracksOk(S(), j)
    {
      hide JobsOk, FdsOk, AllSettled, HistsOk, AppOk, DutyOk;
      forall d | d in conns ensures TrackOk(S(), d, j) {
        assert ConnOk(S(), d);
      }
    }

    lemma ConnsGood()
      requires Good({})
      ensures ConnsOk(S())
    {
      hide JobsOk, FdsOk, AllSettled, HistsOk, AppOk, ConnsOk;
    }

    /** A connection that never armed a receive has no receive and tracks no timer. */
    lemma ReaderOnly(j: JobId, c: Slot)
      requires Good({}) && j in jobs
      ensures c in conns && !conns[c].readingActive ==> conns[c].idle.None?
      ensures jobs[j].Recv? && jobs[j].owner.slot == c && IsValid(jobs[j].owner) ==> conns[c].readingActive
    {
      hide Good, DutyOk, Settled;
      Here(c, {});
      if jobs[j].Recv? && jobs[j].owner.slot == c {
        ReaderHere(j, c);
      }
    }

    lemma WriterReads(j: JobId, c: Slot)
      requires Good({}) && j in jobs && (jobs[j].Write? || jobs[j].Splice?) && jobs[j].owner.slot == c
      ensures c in conns && conns[c].readingActive
    {
      hide Good, RunnerOk, FileOk, Settled;
      WriterHere(j, c);
      Here(c, {});
    }

    method RecvCompletion(j: JobId, c: Slot, cqe: Cqe)
      requires Idle() && j in jobs && jobs[j].Recv? && jobs[j].owner.slot == c && KernelMay(jobs[j], cqe)
      modifies this
      ensures Idle() && Kept(old(S()), S(), c, {j})
      ensures old(!IsValid(jobs[j].owner) || !conns[c].readingActive) ==> SameSlot(old(S()), S(), c)
      ensures ClosesOn(old(S()), S(), j, !cqe.more)
      ensures Moved(old(hist), hist, old(jobs[j].owner), old(Gets(jobs[j], cqe)), [])
    {
      hide Good, Kept, RunnerLaunched, Unreferenced, NoneBusy, TracksOk, ConnsOk, ClosesOn, KernelMay, Moved, Takes;
      ghost var s := S();
      IdleLaunched(c);
      ReaderOnly(j, c);
      WhoTracks(j);
      var free := OnRecv(j, c, cqe);
      if cqe.more {
        AllDone(s, S(), c, {j});
      } else {
        assert {j} - {j} == {};
        Finish(j, c, free, s, {j});
      }
      ConnsGood();
      ClosingProgress(s, S(), c, {j}, j, !cqe.more);
    }

    method TimerCompletion(j: JobId, c: Slot, res: int)
      requires Idle() && j in jobs && jobs[j].Timer? && jobs[j].owner.slot == c
      modifies this
      ensures Idle() && Kept(old(S()), S(), c, {j})
      ensures old(!IsValid(jobs[j].owner) || !conns[c].readingActive) ==> SameSlot(old(S()), S(), c)
      ensures ClosesOn(old(S()), S(), j, true)
      ensures hist == old(hist)
    {
      hide Good, Kept, RunnerLaunched, Unreferenced, NoneBusy, TracksOk, ConnsOk, ClosesOn;
      ghost var s := S();
      IdleLaunched(c);
      ReaderOnly(j, c);
      WhoTracks(j);
      OnTimer(j, c, res);
      assert {j} - {j} == {};
      Finish(j, c, true, s, {j});
      ConnsGood();
      ClosingProgress(s, S(), c, {j}, j, true);
    }

    method CancelCompletion(j: JobId)
      requires Idle() && j in jobs && jobs[j].Cancel?
      modifies this
      ensures Idle() && Kept(old(S()), S(), 0, {j}) && SameSlot(old(S()), S(), 0)
      ensures ClosesOn(old(S()), S(), j, true)
      ensures hist == old(hist)
    {
      hide Good, Kept, RunnerLaunched, Unreferenced, NoneBusy, TracksOk, ConnsOk, ClosesOn;
      ghost var s := S();
      IdleLaunched(0);
      WhoTracks(j);
      OnCancel(j, 0);
      assert {j} - {j} == {};
      Finish(j, 0, true, s, {j});
      ConnsGood();
      ClosingProgress(s, S(), 0, {j}, j, true);
    }

    method ResponseCompletion(j: JobId, c: Slot, cqe: Cqe)
      requires Idle() && j in jobs && (jobs[j].Write? || jobs[j].Splice?) && jobs[j].owner.slot == c && KernelMay(jobs[j], cqe)
      modifies this
      ensures Idle() && Kept(old(S()), S(), c, old(Reach(j, jobs[j])))
      ensures old(c in conns && conns[c].readingActive)
      ensures ClosesOn(old(S()), S(), j, true)
      ensures Moved(old(hist), hist, old(jobs[j].owner), [], old(Sends(jobs[j], cqe.res)))
    {
      hide Good, Kept, Unreferenced, NoneBusy, TracksOk, ConnsOk, ClosesOn, Moved;
      ghost var s, x := S(), Reach(j, jobs[j]);
      WhoTracks(j);
      WriterReads(j, c);
      var free;
      if jobs[j].Write? {
        free := OnWrite(j, c, cqe.res);
      } else {
        free := OnSplice(j, c, cqe.res, cqe.grants);
      }
      if free {
        ResponderFree(j, c, {});
      }
      Finish(j, c, free, s, x);
      ConnsGood();
      ClosingProgress(s, S(), c, x, j, true);
    }

    /** Server::handleCompletion for any completion the kernel may deliver. Only the connection
        the job was armed for changes, and none if that connection is gone or there is none; the
        ring is again between completions, with every operation counted. The bytes the completion
        delivered and accepted, and no others, are added to that connection's stream and wire. A
        closing connection that waited for nothing else is gone. */
    method HandleCompletion(j: JobId, cqe: Cqe)
      requires Idle() && j in jobs && KernelMay(jobs[j], cqe)
      modifies this
      ensures Idle()
      ensures var job := old(jobs[j]);
              if job.Cancel? then Kept(old(S()), S(), 0, {j}) && SameSlot(old(S()), S(), 0) && hist == old(hist)
              else Kept(old(S()), S(), job.owner.slot, Reach(j, job))
                   && Moved(old(hist), hist, job.owner, old(Gets(jobs[j], cqe)), Sends(job, cqe.res))
      ensures old((jobs[j].Recv? || jobs[j].Timer?) && !IsValid(jobs[j].owner)) ==>
                SameSlot(old(S()), S(), old(jobs[j].owner.slot))
      ensures ClosesOn(old(S()), S(), j, !cqe.more) && FreedBy(old(S()), S(), j, !cqe.more)
      ensures Strands(old(S()), S())
    {
      hide Idle, Kept, ClosesOn, SameSlot, IsValid, Still, Moved, Strands, FreedBy, WaitsOk;
      var job := jobs[j];
      ghost var h, s := hist, S();
      StillSame(h);
      WaitsForSome();
      match job {
        case Recv(_, o) =>
          RecvCompletion(j, o.slot, cqe);
          StrandsKept(s, S(), o.slot, {j});
        case Timer(o) =>
          TimerCompletion(j, o.slot, cqe.res);
          StillMoved(h, h, o);
          StrandsKept(s, S(), o.slot, {j});
        case Cancel(_) =>
          CancelCompletion(j);
          StrandsKept(s, S(), 0, {j});
        case Write(_, _, _, _, o) =>
          ResponseCompletion(j, o.slot, cqe);
          StrandsKept(s, S(), o.slot, Reach(j, job));
        case Splice(_, _, _, _, o) =>
          ResponseCompletion(j, o.slot, cqe);
          StrandsKept(s, S(), o.slot, Reach(j, job));
      }
      assert {j} + {} == {j};
      WaitsForSome();
      ClosedSoon(s, S(), j, !cqe.more);
    }

    lemma WaitsForSome()
      requires Idle()
      ensures WaitsOk(S())
    {
      hide Idle;
      forall c | c in conns && Closing(conns[c]) ensures 1 <= Waits(conns[c]) <= 2 {
        ClosingIsNeverStuck(c);
      }
    }

    // -------------------------------------------------------------------------------------
    // Runs

    constructor (app: App, idleTimeout: bool)
      requires AppOk(app)
      ensures Idle() && this.app == app && conns == map[] && hist == map[] && jobs == map[] && fds == map[]
    {
      this.app, this.idleTimeout := app, idleTimeout;
      conns, gens, jobs, fds, inFlight, stopping := map[], map[], map[], map[], 0, false;
      ops, duty, hist, handling := multiset{}, map[], map[], 0;
    }

    /** The stop signal's completion: the sweep asks the kernel to cancel every receive and timer,
        all of them unless a pool or the queue is exhausted on the way. No connection, descriptor
        or response changes. */
    method Sweep()
      requires Idle()
      modifies `jobs, `ops, `inFlight, `shortages
      ensures Idle() && shortages >= old(shortages) && Kept(old(S()), S(), 0, {}) && SameSlot(old(S()), S(), 0)
      ensures shortages == old(shortages) ==>
                forall j :: j in old(jobs) && (old(jobs)[j].Recv? || old(jobs)[j].Timer?) ==> Asked(old(jobs), jobs, j)
    {
      hide Good, NoneBusy, Kept, Asked;
      ghost var s0 := S();
      KeptSame(s0, 0);
      var todo: set<JobId> := set j | j in jobs && (jobs[j].Recv? || jobs[j].Timer?);
      ghost var targets := todo;
      while todo != {}
        invariant Idle() && shortages >= old(shortages) && Kept(s0, S(), 0, {}) && todo <= targets
        invariant shortages == old(shortages) ==> forall j :: j in targets - todo ==> Asked(s0.jobs, jobs, j)
        decreases |todo|
      {
        var j: JobId :| j in todo;
        todo := todo - {j};
        ghost var s := S();
        Loosen(0);
        var ok := SubmitCancel(j, 0);
        NoneTouched(s, S(), 0);
        AskedStays(s0, s, S(), targets - todo - {j}, j, ok);
        KeptTrans(s0, s, S(), 0, {});
      }
    }

    /** Earlier requests stay submitted. */
    lemma AskedStays(s0: State, s: State, s': State, done: set<JobId>, j: JobId, ok: bool)
      requires Kept(s0, s, 0, {}) && Kept(s, s', 0, {})
      ensures (forall i :: i in done ==> Asked(s0.jobs, s.jobs, i)) ==> forall i :: i in done ==> Asked(s0.jobs, s'.jobs, i)
      ensures Asked(s.jobs, s'.jobs, j) ==> Asked(s0.jobs, s'.jobs, j)
    {
      hide SameSlot, ConnKept;
      forall i | i in done && Asked(s0.jobs, s.jobs, i) ensures Asked(s0.jobs, s'.jobs, i) {
        var k :| k in s.jobs && k !in s0.jobs && s.jobs[k] == Cancel(i);
        assert SameJob(s, s', k);
      }
      if Asked(s.jobs, s'.jobs, j) {
        var k :| k in s'.jobs && k !in s.jobs && s'.jobs[k] == Cancel(j);
        assert k in s0.jobs ==> SameJob(s0, s, k);
      }
    }

    /** Any number of events in any order: completions the kernel may deliver, accepted sockets,
        the stop signal. */
    method Run(events: nat)
      requires Idle()
      modifies this
      ensures Idle() && Strands(old(S()), S())
    {
      hide Idle, KernelMay, Kept, SameSlot;
      ghost var s0 := S();
      StrandsSame(s0);
      for i := 0 to events
        invariant Idle() && Strands(s0, S())
      {
        var j: JobId, cqe: Cqe, fd: int := *, *, *;
        ghost var s := S();
        if {
          case j in jobs && KernelMay(jobs[j], cqe) => HandleCompletion(j, cqe);
          case fd >= 0 && fd !in fds =>
            var slot: Option<Slot>, recv: Option<JobId>, entry: bool := *, *, *;
            Accept(fd, if slot.Some? && slot.value in conns then None else slot,
                   if recv.Some? && recv.value in jobs then None else recv, entry);
          case true =>
            Sweep();
            StrandsKept(s, S(), 0, {});
        }
        StrandsTrans(s0, s, S());
      }
    }

    // -------------------------------------------------------------------------------------
    // What every run keeps. Each of these holds whenever the ring is between completions, so
    // after every prefix of every run.

    /** No operation names a freed job; each counted operation is exactly one the kernel holds. */
    lemma KernelHoldsLiveJobs(j: JobId)
      requires Idle() && j in ops
      ensures j in jobs && inFlight == |ops| && ops[j] <= inFlight
      ensures jobs[j].Recv? || jobs[j].Timer? || jobs[j].Cancel? || jobs[j].Write? ==> ops[j] == 1
      ensures jobs[j].Splice? ==> ops[j] == |jobs[j].world.legs|
    {
      hide HistsOk, AppOk, ConnsOk, FdsOk, AllSettled;
      assert JobOk(S(), j);
      assert multiset{} <= ops[j := 0] <= ops;
    }

    /** A job that holds a raw pointer to its connection: the connection is that very object,
        its socket is open and is the one the job writes to. */
    lemma PointersAreLive(j: JobId)
      requires Idle() && j in jobs && (jobs[j].Write? || jobs[j].File? || jobs[j].Splice?)
      ensures Valid(S(), jobs[j].owner)
      ensures var c := jobs[j].owner.slot;
              && conns[c].inFlight && conns[c].clientFd == jobs[j].fd
              && jobs[j].fd in fds && fds[jobs[j].fd] == Socket(Self(S(), c))
              && c in duty && (duty[c].runner == j || duty[c].file == Some(j))
    {
      hide HistsOk, AppOk, Inv, SpliceFile.Inv, Settled;
      JobAt(S(), j, {});
      At(S(), jobs[j].owner.slot, {});
    }

    /** Two responses are never on the wire of one connection. */
    lemma OneResponse(i: JobId, j: JobId)
      requires Idle() && i in jobs && j in jobs && (jobs[i].Write? || jobs[i].Splice?) && (jobs[j].Write? || jobs[j].Splice?)
      requires jobs[i].owner.slot == jobs[j].owner.slot
      ensures i == j
    {
      hide HistsOk, AppOk, Inv, SpliceFile.Inv;
      JobAt(S(), i, {});
      JobAt(S(), j, {});
    }

    /** Sockets and files are open exactly while their connection or file job needs them. */
    lemma DescriptorsMatch(fd: int)
      requires Idle() && fd >= 0
      ensures fd in fds <==>
                || (exists c :: c in conns && TheFd(conns[c]) == fd)
                || (exists j :: j in jobs && jobs[j].File? && jobs[j].source.fd == fd)
    {
      hide HistsOk, AppOk, JobsOk, AllSettled, DutyOk;
      if fd in fds {
        assert FdOk(S(), fd);
      }
      forall c | c in conns ensures TheFd(conns[c]) in fds {
        assert ConnOk(S(), c);
      }
      forall j | j in jobs ensures SourceOk(S(), j) {
      }
    }

    /** A connection that has begun to close is never stuck: a response will complete, or it
        waits for a receive or timer the kernel holds and was asked to cancel. */
    lemma ClosingIsNeverStuck(c: Slot)
      requires Idle() && c in conns && conns[c].closePending
      ensures conns[c].inFlight ==> c in duty && duty[c].runner in ops
      ensures !conns[c].inFlight ==>
                && 1 <= Waits(conns[c]) <= 2
                && (conns[c].read.Some? ==> conns[c].readCancel && conns[c].read.value in ops)
                && (conns[c].idle.Some? ==> conns[c].idleCancel && conns[c].idle.value in ops)
    {
      hide HistsOk, AppOk, Inv, SpliceFile.Inv, FileOk;
      At(S(), c, {});
      if conns[c].inFlight {
        JobAt(S(), duty[c].runner, {});
        RunnerHasLegs(c);
      } else {
        if conns[c].read.Some? { JobAt(S(), conns[c].read.value, {}); }
        if conns[c].idle.Some? { JobAt(S(), conns[c].idle.value, {}); }
      }
    }

    /** Connection `c` waits for operation `j`. */
    ghost predicate Awaits(c: Slot, j: JobId)
      reads this
    {
      && c in conns
      && (conns[c].read == Some(j) || conns[c].idle == Some(j) || (c in duty && duty[c].runner == j))
    }

    /** A live connection waits for something the kernel holds if and only if its first receive
        was armed; otherwise nothing will ever touch it again. */
    lemma WaitsExactlyWhenReading(c: Slot)
      requires Idle() && c in conns
      ensures conns[c].readingActive <==> exists j :: j in ops && Awaits(c, j)
    {
      hide HistsOk, AppOk, Inv, SpliceFile.Inv, FileOk;
      At(S(), c, {});
      if conns[c].readingActive {
        if conns[c].inFlight {
          JobAt(S(), duty[c].runner, {});
          RunnerHasLegs(c);
          assert duty[c].runner in ops && Awaits(c, duty[c].runner);
        } else if conns[c].read.Some? {
          JobAt(S(), conns[c].read.value, {});
          assert conns[c].read.value in ops && Awaits(c, conns[c].read.value);
        } else {
          JobAt(S(), conns[c].idle.value, {});
          assert conns[c].idle.value in ops && Awaits(c, conns[c].idle.value);
        }
      }
    }

    lemma RunnerHasLegs(c: Slot)
      requires Idle() && c in duty
      ensures duty[c].runner in jobs && jobs[duty[c].runner] == Core(jobs[duty[c].runner])
      ensures jobs[duty[c].runner].Splice? && !jobs[duty[c].runner].world.freed ==> jobs[duty[c].runner].world.legs != []
    {
      hide HistsOk, AppOk, Inv, SpliceFile.Conserved, ConnOk, Settled, FileOk;
      At(S(), c, {});
    }

    /** The responses of a connection, open or closed, are on its socket in request order; a
        refusal is the last of them, has the right status and its reason in the stream. */
    lemma ResponsesInOrder(o: Owner)
      requires Idle() && o in hist
      ensures var h := hist[o];
              && h.wire <= Flat(h.log) && |h.requests| <= |h.log| + 1
              && forall i :: 0 <= i < |h.log| ==>
                   && (h.log[i].answers.Some? ==>
                         h.log[i].answers.value == i < |h.requests| && Answered(app, h.requests[i], h.log[i]))
                   && (h.log[i].answers.None? ==>
                         && i == |h.log| - 1 == |h.requests|
                         && h.refused.Some? && Justified(app, h, h.refused.value)
                         && IsRefusal(app, h.log[i], RefusalCode(h.refused.value)))
                   && (!h.log[i].keep ==> i == |h.log| - 1 && |h.requests| <= |h.log|)
    {
      hide Inv, HistsOk, AppOk, Answered, IsRefusal, Framing.Consumes, RefusalCode, Justified;
      HistOf(o);
      var h := hist[o];
      forall i | 0 <= i < |h.log|
        ensures h.log[i].answers.Some? ==>
                  h.log[i].answers.value == i < |h.requests| && Answered(app, h.requests[i], h.log[i])
        ensures h.log[i].answers.None? ==>
                  && i == |h.log| - 1 == |h.requests|
                  && h.refused.Some? && Justified(app, h, h.refused.value)
                  && IsRefusal(app, h.log[i], RefusalCode(h.refused.value))
        ensures !h.log[i].keep ==> i == |h.log| - 1 && |h.requests| <= |h.log|
      {
        assert LogOk(app, h, i);
      }
    }

    /** However the stream was cut into receives, the requests dispatched are a prefix of those
        obtained by parsing the whole stream at once; an idle connection has dispatched them all. */
    lemma ChunkingIndependence(o: Owner)
      requires Idle() && o in hist
      ensures hist[o].requests <= Framing.ParseAll(app.parse, hist[o].stream)
      ensures IsValid(o) && !conns[o.slot].inFlight && !conns[o.slot].closePending ==>
                hist[o].requests == Framing.ParseAll(app.parse, hist[o].stream)
    {
      hide Inv, HistsOk, LogOk, Framing.Framed, Framing.ParseAll;
      HistOf(o);
      var h := hist[o];
      Framing.ConsumesPrefix(app.parse, h.taken, h.requests, h.stream[|h.taken|..]);
      assert h.taken + h.stream[|h.taken|..] == h.stream;
      if IsValid(o) && !conns[o.slot].inFlight && !conns[o.slot].closePending {
        HistoryHere(o.slot, {});
        Here(o.slot, {});
        NothingLeft(app.parse, conns[o.slot].buffer);
        assert h.stream[|h.taken|..] == conns[o.slot].buffer;
      }
    }

    /** An idle connection has answered every request it was sent, in full, and kept none waiting. */
    lemma IdleHasAnsweredAll(c: Slot)
      requires Idle() && c in conns && !conns[c].inFlight && !conns[c].closePending
      ensures Self(S(), c) in hist
      ensures var h := H(c);
              && |h.log| == |h.requests| && h.wire == Flat(h.log)
              && h.requests == Framing.ParseAll(app.parse, h.stream)
              && forall i :: 0 <= i < |h.log| ==> h.log[i].keep && Answered(app, h.requests[i], h.log[i])
    {
      hide Inv, HistsOk, LogOk, Framing.Framed, Framing.ParseAll, Framing.Consumes, Answered, Flat;
      HistoryHere(c, {});
      Here(c, {});
      ChunkingIndependence(Self(S(), c));
      ResponsesInOrder(Self(S(), c));
      var h := H(c);
      forall i | 0 <= i < |h.log| ensures h.log[i].keep && Answered(app, h.requests[i], h.log[i]) {
        assert !h.log[i].keep ==> i == |h.log| - 1;
      }
    }

    lemma HistOf(o: Owner)
      requires Idle() && o in hist
      ensures HistOk(app, hist[o])
    {
      hide Inv, AppOk, HistOk, HistAt, IdleAt;
    }

    /** When the drain loop ends with nothing counted, the kernel holds no job, every job is back
        in its pool and every file is closed. The connections left are those whose first receive
        could not be armed. */
    lemma DrainLeavesNothing()
      requires Idle() && inFlight == 0
      ensures ops == multiset{} && jobs == map[] && duty == map[]
      ensures forall c :: c in conns ==> !conns[c].readingActive
      ensures forall fd :: fd in fds ==> fds[fd].Socket?
    {
      hide HistsOk, AppOk, Inv, SpliceFile.Inv;
      assert ops == multiset{};
      forall j | j in jobs ensures false {
        JobAt(S(), j, {});
        if jobs[j].Splice? || jobs[j].File? {
          var c := jobs[j].owner.slot;
          RunnerHasLegs(c);
          JobAt(S(), duty[c].runner, {});
          At(S(), c, {});
        }
      }
      forall c | c in duty ensures false { At(S(), c, {}); }
      forall c | c in conns ensures !conns[c].readingActive { At(S(), c, {}); }
      FilesNeedJobs();
    }

    lemma FilesNeedJobs()
      requires Idle() && jobs == map[]
      ensures forall fd :: fd in fds ==> fds[fd].Socket?
    {
      hide HistsOk, AppOk, JobsOk, ConnsOk, AllSettled;
      forall fd | fd in fds ensures fds[fd].Socket? {
        assert FdOk(S(), fd);
      }
    }
  }

  /** The input that strands a connection: a socket is accepted while there is no receive job or
      no submission entry to be had. Whatever happens afterwards, it stays open, and the kernel
      holds nothing that could close it. */
  method StrandedAccept(app: App, idleTimeout: bool, fd: int, recv: Option<JobId>, entry: bool, events: nat)
    returns (ring: Ring)
    requires AppOk(app) && fd >= 0 && (recv.None? || !entry)
    ensures ring.Idle() && 0 in ring.conns && ring.conns[0].clientFd == fd && !ring.conns[0].readingActive
    ensures fd in ring.fds && forall j :: j in ring.ops ==> !ring.Awaits(0, j)
  {
    hide AppOk;
    ring := new Ring(app, idleTimeout);
    ring.Accept(fd, Some(0), recv, entry);
    ring.Run(events);
    ring.WaitsExactlyWhenReading(0);
    ring.DescriptorsMatch(fd);
  }

  lemma NothingLeft(parse: Framing.Parser, buffer: string)
    requires Framing.Framed(parse) && (buffer == [] || parse(buffer).Incomplete?)
    ensures Framing.ParseAll(parse, buffer) == []
  {
  }
}
