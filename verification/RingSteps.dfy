/** The elementary changes of the ring's state; each keeps the invariant. */
module RingSteps {
  import opened Wrappers
  import opened RingState
  import opened RingLocality
  import SpliceFile

  /** The invariant at one connection. */
  lemma At(s: State, c: Slot, except: set<Slot>)
    requires Inv(s, except)
    ensures c in s.conns ==> ConnOk(s, c)
    ensures c in s.duty ==> DutyOk(s, c)
    ensures c in s.conns && c !in except ==> Settled(s, c)
  {
    hide ConnOk, DutyOk, Settled, JobsOk, FdsOk;
  }

  lemma Weaken(s: State, c: Slot)
    requires Inv(s, {})
    ensures Inv(s, {c})
  {
    hide JobsOk, ConnsOk, FdsOk, Settled;
  }

  /** A connection that keeps its promises again rejoins the others. */
  lemma Settle(s: State, c: Slot)
    requires Inv(s, {c}) && (c in s.conns ==> Settled(s, c))
    ensures Inv(s, {})
  {
    hide JobsOk, ConnsOk, FdsOk, Settled;
  }

  lemma JobAt(s: State, j: JobId, except: set<Slot>)
    requires Inv(s, except)
    ensures j in s.jobs ==> JobOk(s, j) && SourceOk(s, j)
    ensures j !in s.jobs ==> s.ops[j] == 0
  {
    hide ConnsOk, AllSettled, JobOk, FdOk, SourceOk;
  }

  /** The descriptor a file job keeps open, or -1. */
  function SourceFd(s: State, j: JobId): int {
    if j in s.jobs && Core(s.jobs[j]).File? then Core(s.jobs[j]).source.fd else -1
  }

  /** No descriptor is opened or closed, and none changes hands. */
  lemma SameFds(s: State, s': State, c: Slot, x: set<JobId>)
    requires FdsOk(s) && s'.fds == s.fds && Gen(s', c) == Gen(s, c)
    requires c in s.conns ==> c in s'.conns && TheFd(s'.conns[c]) == TheFd(s.conns[c])
    requires forall j :: j in x ==> SourceFd(s', j) == SourceFd(s, j)
    ensures FdsHere(s', c, x)
  {
    forall fd | fd in s'.fds && Touched(s'.fds[fd], c, x) ensures FdOk(s', fd) {
      assert FdOk(s, fd);
    }
    forall j | j in x && j in s'.jobs ensures SourceOk(s', j) {
      assert SourceFd(s', j) >= 0 ==> j in s.jobs && SourceOk(s, j);
    }
  }

  /** A change of one connection's fields and of one job is local. */
  lemma LocalJob(s: State, s': State, c: Slot, j: JobId)
    requires forall d :: d != c ==> SameSlot(s, s', d)
    requires s'.jobs - {j} == s.jobs - {j} && s'.ops[j := 0] == s.ops[j := 0] && s'.fds == s.fds
    requires j in s.jobs ==> Home(Core(s.jobs[j])) in {None, Some(c)}
    ensures Local(s, s', c, {j})
  {
    hide SameSlot, Home;
    forall i | i != j ensures SameJob(s, s', i) {
      assert i in s.jobs <==> i in s.jobs - {j};
      assert i in s'.jobs <==> i in s'.jobs - {j};
      assert s.ops[i] == s.ops[j := 0][i] && s'.ops[i] == s'.ops[j := 0][i];
    }
  }

  lemma LocalSlot(s: State, s': State, c: Slot)
    requires forall d :: d != c ==> SameSlot(s, s', d)
    requires s'.jobs == s.jobs && s'.ops == s.ops && s'.fds == s.fds
    ensures Local(s, s', c, {})
  {
    hide SameSlot, Home;
  }

  /** The connection's own jobs do not notice a change of its fields. */
  lemma SameHome(s: State, s': State, c: Slot, x: set<JobId>)
    requires JobsOk(s) && c in s.conns && c in s'.conns && Gen(s', c) == Gen(s, c)
    requires c in s.duty <==> c in s'.duty
    requires c in s.duty ==> s'.duty[c].runner == s.duty[c].runner && s'.duty[c].file == s.duty[c].file
    requires Local(s, s', c, x)
    requires var k, k' := s.conns[c], s'.conns[c];
             k'.clientFd >= 0 ==>
               && k.clientFd >= 0
               && (k'.read == k.read || k.read.None? || k.read.value in x ||
                   (k.read.value in s.jobs && s.jobs[k.read.value].Busy?))
    ensures forall j :: j in s'.jobs && j !in x && Home(s'.jobs[j]) == Some(c) ==> JobOk(s', j)
  {
    forall j | j in s'.jobs && j !in x && Home(s'.jobs[j]) == Some(c) ensures JobOk(s', j) {
      assert SameJob(s, s', j) && JobOk(s, j);
    }
  }

  /** The fields of one connection change; its pointers, descriptor and duty stay consistent. */
  lemma UpdateConn(s: State, c: Slot, k: Conn)
    requires Inv(s, {c}) && c in s.conns
    requires ConnOk(s.(conns := s.conns[c := k]), c)
    requires c in s.duty ==> k.inFlight && k.clientFd == s.conns[c].clientFd
    requires TheFd(k) == TheFd(s.conns[c]) && (k.clientFd >= 0 ==> s.conns[c].clientFd >= 0)
    requires k.clientFd >= 0 && k.read != s.conns[c].read ==>
               s.conns[c].read.Some? && s.conns[c].read.value in s.jobs && s.jobs[s.conns[c].read.value].Busy?
    ensures Inv(s.(conns := s.conns[c := k]), {c})
    ensures Settled(s.(conns := s.conns[c := k]), c) ==> Inv(s.(conns := s.conns[c := k]), {})
  {
    hide JobsOk, ConnsOk, FdsOk, AllSettled, RunnerOk, FileOk, JobOk;
    var s' := s.(conns := s.conns[c := k]);
    At(s, c, {c});
    SameHome(s, s', c, {});
    SameFds(s, s', c, {});
    Locality(s, s', c, {});
  }

  /** A new timer or cancel is submitted. */
  lemma AddArmed(s: State, j: JobId, job: Job, c: Slot)
    requires Inv(s, {c}) && j !in s.jobs
    requires job.Cancel? || (job.Timer? && Valid(s, job.owner))
    ensures Inv(s.(jobs := s.jobs[j := job], ops := s.ops[j := 1]), {c})
    ensures Inv(s, {}) ==> Inv(s.(jobs := s.jobs[j := job], ops := s.ops[j := 1]), {})
  {
    hide JobsOk, ConnsOk, FdsOk, AllSettled, RunnerOk, FileOk, Local;
    var s' := s.(jobs := s.jobs[j := job], ops := s.ops[j := 1]);
    LocalJob(s, s', c, j);
    At(s, c, {c});
    JobAt(s, j, {c});
    SameFds(s, s', c, {j});
    if Inv(s, {}) {
      At(s, c, {});
    }
    Locality(s, s', c, {j});
  }

  /** The connection's multishot receive is armed. */
  lemma ArmRead(s: State, c: Slot, r: JobId)
    requires Inv(s, {c}) && c in s.conns && r !in s.jobs && s.conns[c].clientFd >= 0 && s.conns[c].read.None?
    ensures var k := s.conns[c].(readingActive := true, read := Some(r));
            var s' := s.(conns := s.conns[c := k], jobs := s.jobs[r := Recv(k.clientFd, Self(s, c))],
                         ops := s.ops[r := 1]);
            Inv(s', {c}) && (Settled(s', c) ==> Inv(s', {}))
  {
    hide JobsOk, ConnsOk, FdsOk, AllSettled, RunnerOk, FileOk, Local;
    var k := s.conns[c].(readingActive := true, read := Some(r));
    var s' := s.(conns := s.conns[c := k], jobs := s.jobs[r := Recv(k.clientFd, Self(s, c))],
                 ops := s.ops[r := 1]);
    LocalJob(s, s', c, r);
    At(s, c, {c});
    JobAt(s, r, {c});
    SameHome(s, s', c, {r});
    SameFds(s, s', c, {r});
    Locality(s, s', c, {r});
  }

  /** The socket is closed and the connection returned to its pool. */
  lemma FreeConn(s: State, c: Slot)
    requires Inv(s, {c}) && c in s.conns && c !in s.duty
    requires s.conns[c].read.None? && s.conns[c].idle.None?
    ensures Inv(s.(conns := s.conns - {c}, gens := s.gens[c := Gen(s, c) + 1], fds := s.fds - {TheFd(s.conns[c])}), {})
  {
    hide JobsOk, ConnsOk, FdsOk, AllSettled, RunnerOk, FileOk, JobOk;
    var s' := s.(conns := s.conns - {c}, gens := s.gens[c := Gen(s, c) + 1], fds := s.fds - {TheFd(s.conns[c])});
    At(s, c, {c});
    FreedJobs(s, s', c);
    FreedFds(s, s', c);
    Locality(s, s', c, {});
  }

  lemma FreedJobs(s: State, s': State, c: Slot)
    requires JobsOk(s) && c !in s.duty && c !in s'.conns && Gen(s', c) == Gen(s, c) + 1
    requires forall j :: SameJob(s, s', j)
    ensures JobsHere(s, s', c, {})
  {
    forall j | j in s'.jobs && Home(s'.jobs[j]) == Some(c) ensures JobOk(s', j) {
      assert SameJob(s, s', j) && JobOk(s, j);
    }
  }

  lemma FreedFds(s: State, s': State, c: Slot)
    requires FdsOk(s) && c in s.conns && s'.fds == s.fds - {TheFd(s.conns[c])}
    ensures FdsHere(s', c, {})
  {
    forall fd | fd in s'.fds ensures !Touched(s'.fds[fd], c, {}) {
      assert FdOk(s, fd);
    }
  }

  /** A connection is accepted. */
  lemma AddConn(s: State, c: Slot, k: Conn)
    requires Inv(s, {}) && c !in s.conns
    requires k.clientFd >= 0 && k.clientFd !in s.fds && k.deferredFd < 0 && !k.readingActive && !k.inFlight
    requires !k.closePending && k.read.None? && k.idle.None? && !k.readCancel
    ensures Inv(s.(conns := s.conns[c := k], fds := s.fds[k.clientFd := Socket(Self(s, c))]), {})
  {
    hide JobsOk, ConnsOk, FdsOk, AllSettled, RunnerOk, FileOk;
    var s' := s.(conns := s.conns[c := k], fds := s.fds[k.clientFd := Socket(Self(s, c))]);
    At(s, c, {});
    Weaken(s, c);
    AcceptedHere(s, s', c, k);
    Locality(s, s', c, {});
  }

  lemma AcceptedHere(s: State, s': State, c: Slot, k: Conn)
    requires JobsOk(s) && FdsOk(s) && c !in s.conns && k.clientFd >= 0 && k.clientFd !in s.fds
    requires s' == s.(conns := s.conns[c := k], fds := s.fds[k.clientFd := Socket(Self(s, c))])
    ensures JobsHere(s, s', c, {}) && FdsHere(s', c, {})
  {
    forall j | j in s'.jobs && Home(s'.jobs[j]) == Some(c) ensures JobOk(s', j) {
      assert JobOk(s, j);
    }
    forall fd | fd in s'.fds && Touched(s'.fds[fd], c, {}) ensures FdOk(s', fd) {
      assert fd in s.fds ==> FdOk(s, fd);
    }
  }

  // ---------------------------------------------------------------------------------------
  // Jobs

  /** The kernel delivers the last completion of a job: from here on only its handler holds it. */
  lemma CheckOut(s: State, j: JobId, c: Slot)
    requires Inv(s, {c}) && j in s.jobs && s.ops[j] == 1 && !s.jobs[j].Busy? && Home(s.jobs[j]) in {None, Some(c)}
    ensures Inv(s.(jobs := s.jobs[j := Busy(s.jobs[j])], ops := s.ops[j := 0]), {c})
    ensures Inv(s, {}) ==> Inv(s.(jobs := s.jobs[j := Busy(s.jobs[j])], ops := s.ops[j := 0]), {})
  {
    hide JobsOk, ConnsOk, FdsOk, AllSettled, RunnerOk, Local;
    var s' := s.(jobs := s.jobs[j := Busy(s.jobs[j])], ops := s.ops[j := 0]);
    LocalJob(s, s', c, j);
    At(s, c, {c});
    JobAt(s, j, {c});
    SameFds(s, s', c, {j});
    if Inv(s, {}) {
      At(s, c, {});
    }
    Locality(s, s', c, {j});
  }

  /** A job no connection, response or descriptor refers to is returned to its pool. */
  ghost predicate Unreferenced(s: State, j: JobId, c: Slot)
    requires j in s.jobs
  {
    && (c in s.conns ==> s.conns[c].read != Some(j) && s.conns[c].idle != Some(j))
    && (c in s.duty ==> s.duty[c].runner != j && s.duty[c].file != Some(j))
    && SourceFd(s, j) < 0
  }

  lemma Discard(s: State, j: JobId, c: Slot)
    requires Inv(s, {c}) && j in s.jobs && s.jobs[j].Busy? && Home(Core(s.jobs[j])) in {None, Some(c)}
    requires Unreferenced(s, j, c)
    ensures Inv(s.(jobs := s.jobs - {j}), {c})
    ensures Inv(s, {}) ==> Inv(s.(jobs := s.jobs - {j}), {})
  {
    hide JobsOk, ConnsOk, AllSettled, RunnerOk, FileOk;
    var s' := s.(jobs := s.jobs - {j});
    At(s, c, {c});
    JobAt(s, j, {c});
    DiscardedFds(s, s', c, j);
    if Inv(s, {}) {
      At(s, c, {});
    }
    Locality(s, s', c, {j});
  }

  lemma DiscardedFds(s: State, s': State, c: Slot, j: JobId)
    requires FdsOk(s) && j in s.jobs && SourceFd(s, j) < 0 && s' == s.(jobs := s.jobs - {j})
    ensures FdsHere(s', c, {j})
  {
    forall fd | fd in s'.fds && Touched(s'.fds[fd], c, {j}) ensures FdOk(s', fd) {
      assert FdOk(s, fd);
    }
  }

  /** The multishot receive is armed again in place. */
  lemma Rearm(s: State, j: JobId, c: Slot)
    requires Inv(s, {c}) && j in s.jobs && s.jobs[j].Busy? && Core(s.jobs[j]).Recv? && Core(s.jobs[j]).owner == Self(s, c)
    requires c in s.conns && s.conns[c].read == Some(j)
    ensures Inv(s.(jobs := s.jobs[j := Core(s.jobs[j])], ops := s.ops[j := 1]), {c})
    ensures Inv(s, {}) ==> Inv(s.(jobs := s.jobs[j := Core(s.jobs[j])], ops := s.ops[j := 1]), {})
  {
    hide JobsOk, ConnsOk, FdsOk, AllSettled, RunnerOk, Local;
    var s' := s.(jobs := s.jobs[j := Core(s.jobs[j])], ops := s.ops[j := 1]);
    LocalJob(s, s', c, j);
    At(s, c, {c});
    SameFds(s, s', c, {j});
    if Inv(s, {}) {
      At(s, c, {});
    }
    Locality(s, s', c, {j});
  }

  // ---------------------------------------------------------------------------------------
  // Responses

  /** A job is taken from its pool for connection `c`; nothing is submitted yet. */
  lemma AddBusy(s: State, j: JobId, core: Job, c: Slot)
    requires Inv(s, {c}) && j !in s.jobs && Home(core) == Some(c) && (core.File? ==> core.source.fd < 0)
    ensures Inv(s.(jobs := s.jobs[j := Busy(core)]), {c})
  {
    hide JobsOk, ConnsOk, AllSettled, RunnerOk, FileOk, Local;
    var s' := s.(jobs := s.jobs[j := Busy(core)]);
    LocalJob(s, s', c, j);
    At(s, c, {c});
    JobAt(s, j, {c});
    AddedFds(s, s', c, j);
    Locality(s, s', c, {j});
  }

  lemma AddedFds(s: State, s': State, c: Slot, j: JobId)
    requires FdsOk(s) && j !in s.jobs && j in s'.jobs && s' == s.(jobs := s.jobs[j := s'.jobs[j]]) && SourceFd(s', j) < 0
    ensures FdsHere(s', c, {j})
  {
    forall fd | fd in s'.fds && Touched(s'.fds[fd], c, {j}) ensures FdOk(s', fd) {
      assert FdOk(s, fd);
    }
  }

  /** The state with response `d` on the wire of connection `c`, its file job settled as `f`. */
  function Installed(s: State, c: Slot, d: Duty, f: Job): State {
    s.(duty := s.duty[c := d], jobs := if d.file.Some? then s.jobs[d.file.value := f] else s.jobs)
  }

  /** A response goes on the wire. */
  lemma Install(s: State, c: Slot, d: Duty, f: Job)
    requires Inv(s, {c}) && c in s.conns && s.conns[c].inFlight && c !in s.duty
    requires d.runner in s.jobs && s.jobs[d.runner].Busy?
    requires RunnerOk(Core(s.jobs[d.runner]), d, s.conns[c].clientFd, Self(s, c))
    requires d.file.Some? ==>
               && d.file.value in s.jobs && d.file.value != d.runner && s.jobs[d.file.value].Busy?
               && Core(s.jobs[d.file.value]).File? && Core(s.jobs[d.file.value]).owner.slot == c
               && FileOk(f, Core(s.jobs[d.runner]), d, s.conns[c].clientFd, Self(s, c))
               && f.source.fd == SourceFd(s, d.file.value)
    ensures Inv(Installed(s, c, d, f), {c})
    ensures Settled(Installed(s, c, d, f), c) ==> Inv(Installed(s, c, d, f), {})
  {
    hide JobsOk, ConnsOk, FdsOk, AllSettled, RunnerOk, Local;
    var s' := Installed(s, c, d, f);
    var x := if d.file.Some? then {d.file.value} else {};
    At(s, c, {c});
    JobAt(s, d.runner, {c});
    if d.file.Some? {
      JobAt(s, d.file.value, {c});
      LocalJob(s, s', c, d.file.value);
    } else {
      LocalSlot(s, s', c);
    }
    NoResponders(s, c);
    IdleJobs(s, s', c, x);
    SameFds(s, s', c, x);
    Locality(s, s', c, x);
  }

  /** Without a duty the connection has no settled write, file or splice job. */
  lemma NoResponders(s: State, c: Slot)
    requires JobsOk(s) && c !in s.duty
    ensures forall j :: j in s.jobs && Home(s.jobs[j]) == Some(c) ==> s.jobs[j].Recv? || s.jobs[j].Timer?
  {
    forall j | j in s.jobs && Home(s.jobs[j]) == Some(c) ensures s.jobs[j].Recv? || s.jobs[j].Timer? {
      assert JobOk(s, j);
    }
  }

  function Retired(s: State, c: Slot): State
    requires c in s.duty && (s.duty[c].file.Some? ==> s.duty[c].file.value in s.jobs)
  {
    var d := s.duty[c];
    s.(duty := s.duty - {c},
       jobs := if d.file.Some? then s.jobs[d.file.value := Busy(s.jobs[d.file.value])] else s.jobs)
  }

  /** The response's job has had its last completion: its callback is about to run. */
  lemma Retire(s: State, c: Slot)
    requires Inv(s, {c}) && c in s.duty && s.duty[c].runner in s.jobs && s.jobs[s.duty[c].runner].Busy?
    ensures DutyOk(s, c)
    ensures Inv(Retired(s, c), {c})
  {
    hide JobsOk, ConnsOk, FdsOk, AllSettled, RunnerOk, Local;
    At(s, c, {c});
    var d, s' := s.duty[c], Retired(s, c);
    var x := if d.file.Some? then {d.file.value} else {};
    if d.file.Some? {
      JobAt(s, d.file.value, {c});
      LocalJob(s, s', c, d.file.value);
    } else {
      LocalSlot(s, s', c);
    }
    RunnerBusy(s, c);
    IdleJobs(s, s', c, x);
    SameFds(s, s', c, x);
    Locality(s, s', c, x);
  }

  /** Receives and timers do not depend on the response. */
  lemma IdleJobs(s: State, s': State, c: Slot, x: set<JobId>)
    requires JobsOk(s) && c in s.conns && c in s'.conns && s'.conns[c] == s.conns[c] && Gen(s', c) == Gen(s, c)
    requires Local(s, s', c, x)
    requires forall j :: j in s.jobs && j !in x && Home(s.jobs[j]) == Some(c) ==> s.jobs[j].Recv? || s.jobs[j].Timer?
    ensures forall j :: j in s'.jobs && j !in x && Home(s'.jobs[j]) == Some(c) ==> JobOk(s', j)
  {
    forall j | j in s'.jobs && j !in x && Home(s'.jobs[j]) == Some(c) ensures JobOk(s', j) {
      assert SameJob(s, s', j) && JobOk(s, j);
    }
  }

  lemma RunnerBusy(s: State, c: Slot)
    requires JobsOk(s) && c in s.duty && s.duty[c].runner in s.jobs && s.jobs[s.duty[c].runner].Busy?
    ensures forall j :: j in s.jobs && s.duty[c].file != Some(j) && Home(s.jobs[j]) == Some(c) ==>
              s.jobs[j].Recv? || s.jobs[j].Timer?
  {
    forall j | j in s.jobs && s.duty[c].file != Some(j) && Home(s.jobs[j]) == Some(c)
      ensures s.jobs[j].Recv? || s.jobs[j].Timer?
    {
      assert JobOk(s, j);
    }
  }

  /** The write is submitted. */
  lemma Launch(s: State, j: JobId, c: Slot)
    requires Inv(s, {c}) && c in s.duty && s.duty[c].runner == j && j in s.jobs && s.jobs[j].Busy? && Core(s.jobs[j]).Write?
    ensures Inv(s.(jobs := s.jobs[j := Core(s.jobs[j])], ops := s.ops[j := 1]), {c})
    ensures Inv(s, {}) ==> Inv(s.(jobs := s.jobs[j := Core(s.jobs[j])], ops := s.ops[j := 1]), {})
  {
    hide JobsOk, ConnsOk, FdsOk, AllSettled, Local;
    var s' := s.(jobs := s.jobs[j := Core(s.jobs[j])], ops := s.ops[j := 1]);
    At(s, c, {c});
    LocalJob(s, s', c, j);
    SameFds(s, s', c, {j});
    if Inv(s, {}) {
      At(s, c, {});
    }
    Locality(s, s', c, {j});
  }

  /** The splice's first legs are submitted. */
  lemma LaunchSplice(s: State, j: JobId, c: Slot)
    requires Inv(s, {c}) && c in s.duty && s.duty[c].runner == j && j in s.jobs && s.jobs[j].Busy? && Core(s.jobs[j]).Splice?
    requires !Core(s.jobs[j]).world.freed
    ensures var s' := s.(jobs := s.jobs[j := Core(s.jobs[j])], ops := s.ops[j := |Core(s.jobs[j]).world.legs|]);
            Inv(s', {c}) && (Inv(s, {}) ==> Inv(s', {}))
  {
    hide JobsOk, ConnsOk, FdsOk, AllSettled, Local;
    var s' := s.(jobs := s.jobs[j := Core(s.jobs[j])], ops := s.ops[j := |Core(s.jobs[j]).world.legs|]);
    At(s, c, {c});
    LocalJob(s, s', c, j);
    SameFds(s, s', c, {j});
    if Inv(s, {}) {
      At(s, c, {});
    }
    Locality(s, s', c, {j});
  }

  /** One completion of a splice that goes on: bytes moved, legs replaced. */
  lemma SpliceAdvance(s: State, j: JobId, c: Slot, w: SpliceFile.World, rest: string)
    requires Inv(s, {c}) && c in s.duty && s.duty[c].runner == j && j in s.jobs && s.jobs[j].Splice? && !w.freed
    requires s.jobs[j].owner.slot == c
    requires RunnerOk(s.jobs[j].(world := w), s.duty[c].(rest := rest), s.conns[c].clientFd, Self(s, c))
    ensures var s' := s.(jobs := s.jobs[j := s.jobs[j].(world := w)], ops := s.ops[j := |w.legs|],
                         duty := s.duty[c := s.duty[c].(rest := rest)]);
            Inv(s', {c}) && (Inv(s, {}) ==> Inv(s', {}))
  {
    hide JobsOk, ConnsOk, FdsOk, AllSettled, RunnerOk, Local;
    var s' := s.(jobs := s.jobs[j := s.jobs[j].(world := w)], ops := s.ops[j := |w.legs|],
                 duty := s.duty[c := s.duty[c].(rest := rest)]);
    LocalJob(s, s', c, j);
    At(s, c, {c});
    JobAt(s, j, {c});
    SameHome(s, s', c, {j});
    SameFds(s, s', c, {j});
    if Inv(s, {}) {
      At(s, c, {});
    }
    Locality(s, s', c, {j});
  }

  /** The job on the wire, being handled, records how far it got. */
  lemma Advance(s: State, j: JobId, c: Slot, core: Job, rest: string)
    requires Inv(s, {c}) && c in s.duty && s.duty[c].runner == j && j in s.jobs && s.jobs[j].Busy?
    requires (Core(s.jobs[j]).Write? && core.Write?) || (Core(s.jobs[j]).Splice? && core.Splice?)
    requires core.owner == Core(s.jobs[j]).owner
    requires core.owner.slot == c
    requires RunnerOk(core, s.duty[c].(rest := rest), s.conns[c].clientFd, Self(s, c))
    requires s.duty[c].file.Some? && s.duty[c].file.value in s.jobs ==>
               FileOk(s.jobs[s.duty[c].file.value], core, s.duty[c].(rest := rest), s.conns[c].clientFd, Self(s, c))
    ensures var s' := s.(jobs := s.jobs[j := Busy(core)], duty := s.duty[c := s.duty[c].(rest := rest)]);
            Inv(s', {c}) && (Inv(s, {}) ==> Inv(s', {}))
  {
    hide JobsOk, ConnsOk, FdsOk, AllSettled, RunnerOk, FileOk, Local;
    var s' := s.(jobs := s.jobs[j := Busy(core)], duty := s.duty[c := s.duty[c].(rest := rest)]);
    LocalJob(s, s', c, j);
    At(s, c, {c});
    JobAt(s, j, {c});
    SameHome(s, s', c, {j});
    SameFds(s, s', c, {j});
    if Inv(s, {}) {
      At(s, c, {});
    }
    Locality(s, s', c, {j});
  }

  // ---------------------------------------------------------------------------------------
  // Files

  /** A file job that is being worked on opens or closes its descriptor. */
  lemma ReviseFile(s: State, f: JobId, core: Job, c: Slot, fds: map<int, Holder>)
    requires Inv(s, {c}) && f in s.jobs && s.jobs[f].Busy? && Core(s.jobs[f]).File? && Home(Core(s.jobs[f])) == Some(c) && core.File? && Home(core) == Some(c)
    requires c in s.duty ==> s.duty[c].runner != f && s.duty[c].file != Some(f)
    requires c in s.conns ==> s.conns[c].read != Some(f) && s.conns[c].idle != Some(f)
    requires
      || (SourceFd(s, f) < 0 <= core.source.fd && core.source.fd !in s.fds && fds == s.fds[core.source.fd := OpenFile(f)])
      || (core.source.fd < 0 <= SourceFd(s, f) && fds == s.fds - {SourceFd(s, f)})
      || (core.source.fd == SourceFd(s, f) && fds == s.fds)
      || (core.source.fd < 0 && SourceFd(s, f) < 0 && fds == s.fds)
    ensures Inv(s.(jobs := s.jobs[f := Busy(core)], fds := fds), {c})
    ensures Inv(s, {}) ==> Inv(s.(jobs := s.jobs[f := Busy(core)], fds := fds), {})
  {
    hide JobsOk, ConnsOk, AllSettled, RunnerOk, FileOk;
    var s' := s.(jobs := s.jobs[f := Busy(core)], fds := fds);
    At(s, c, {c});
    JobAt(s, f, {c});
    RevisedFds(s, s', c, f, core);
    assert c in s.conns ==> ConnOk(s', c) by {
      assert c in s.conns ==> FdOk(s, TheFd(s.conns[c]));
    }
    if Inv(s, {}) {
      At(s, c, {});
    }
    Locality(s, s', c, {f});
  }

  lemma RevisedFds(s: State, s': State, c: Slot, f: JobId, core: Job)
    requires FdsOk(s) && f in s.jobs && Core(s.jobs[f]).File? && core.File? && s' == s.(jobs := s.jobs[f := Busy(core)], fds := s'.fds)
    requires
      || (SourceFd(s, f) < 0 <= core.source.fd && core.source.fd !in s.fds && s'.fds == s.fds[core.source.fd := OpenFile(f)])
      || (core.source.fd < 0 <= SourceFd(s, f) && s'.fds == s.fds - {SourceFd(s, f)})
      || (core.source.fd == SourceFd(s, f) && s'.fds == s.fds)
      || (core.source.fd < 0 && SourceFd(s, f) < 0 && s'.fds == s.fds)
    ensures FdsHere(s', c, {f})
    ensures forall fd :: fd in s.fds && !Touched(s.fds[fd], c, {f}) ==> fd in s'.fds && s'.fds[fd] == s.fds[fd]
    ensures forall fd :: fd in s'.fds && !Touched(s'.fds[fd], c, {f}) ==> fd in s.fds && s'.fds[fd] == s.fds[fd]
  {
    assert SourceOk(s, f);
    forall fd | fd in s'.fds && Touched(s'.fds[fd], c, {f}) ensures FdOk(s', fd) {
      assert fd in s.fds ==> FdOk(s, fd);
    }
  }

  // ---------------------------------------------------------------------------------------
  // Frames

  /** What a handler running for connection `c` leaves alone: every other connection, and every
      existing job outside `x`; it leaves no job unfinished outside `x`. The connection itself is still the same object, or was freed
      and its slot's generation moved on. */
  ghost predicate Kept(s: State, s': State, c: Slot, x: set<JobId>) {
    && (forall d :: d != c ==> SameSlot(s, s', d))
    && (forall j :: j in s.jobs && j !in x ==> SameJob(s, s', j))
    && (c !in s.conns ==> SameSlot(s, s', c))
    && (c in s.conns ==> Gen(s', c) == if c in s'.conns then Gen(s, c) else Gen(s, c) + 1)
    && (c in s.conns && c in s'.conns ==> ConnKept(s.conns[c], s'.conns[c]))
    && (forall j :: j in s'.jobs && s'.jobs[j].Busy? && j !in x ==> j in s.jobs && s.jobs[j].Busy?)
  }

  /** None of the jobs `x` is left unfinished: each is settled again or back in its pool. */
  ghost predicate Quiet(s: State, x: set<JobId>) {
    forall j :: j in x && j in s.jobs ==> !s.jobs[j].Busy?
  }

  /** A connection never arms a second receive, never takes a close back, and once it is closing
      with nothing on the wire it starts no response and arms no timer. */
  predicate ConnKept(k: Conn, k': Conn) {
    && (k.readingActive ==> k'.readingActive && k'.read in {None, k.read})
    && (k.closePending ==> k'.closePending) && (k.clientFd < 0 ==> k'.clientFd < 0)
    && (k.closePending && !k.inFlight ==> !k'.inFlight && k'.idle in {None, k.idle})
  }

  lemma KeptSame(s: State, c: Slot)
    ensures Kept(s, s, c, {})
  {
  }

  lemma FreshJob(s: State, j: JobId, except: set<Slot>)
    requires Inv(s, except) && j !in s.jobs
    ensures s.ops[j] == 0
  {
    hide JobOk, ConnsOk, FdsOk, AllSettled;
  }

  lemma KeptConn(s: State, c: Slot, k: Conn)
    requires c in s.conns && ConnKept(s.conns[c], k)
    ensures Kept(s, s.(conns := s.conns[c := k]), c, {})
  {
  }

  lemma KeptJob(s: State, j: JobId, job: Job, n: nat, c: Slot)
    ensures Kept(s, s.(jobs := s.jobs[j := job], ops := s.ops[j := n]), c, {j})
    ensures j !in s.jobs && !job.Busy? ==> Kept(s, s.(jobs := s.jobs[j := job], ops := s.ops[j := n]), c, {})
  {
  }

  lemma KeptFreed(s: State, c: Slot)
    requires c in s.conns && c !in s.duty
    ensures Kept(s, s.(conns := s.conns - {c}, gens := s.gens[c := Gen(s, c) + 1], fds := s.fds - {TheFd(s.conns[c])}), c, {})
  {
  }

  lemma KeptRetired(s: State, c: Slot)
    requires c in s.duty && c in s.conns && (s.duty[c].file.Some? ==> s.duty[c].file.value in s.jobs)
    ensures Kept(s, Retired(s, c), c, {s.duty[c].runner} + (if s.duty[c].file.Some? then {s.duty[c].file.value} else {}))
  {
  }

  lemma KeptInstalled(s: State, c: Slot, d: Duty, f: Job)
    requires c in s.conns
    ensures Kept(s, Installed(s, c, d, f), c, if d.file.Some? then {d.file.value} else {})
  {
  }

  lemma KeptDiscarded(s: State, j: JobId, c: Slot)
    ensures Kept(s, s.(jobs := s.jobs - {j}), c, {j})
  {
  }

  lemma KeptRevised(s: State, f: JobId, core: Job, c: Slot, fds: map<int, Holder>)
    ensures Kept(s, s.(jobs := s.jobs[f := Busy(core)], fds := fds), c, {f})
  {
  }

  lemma KeptAt(s: State, s': State, c: Slot, j: JobId)
    requires Kept(s, s', c, {}) && j in s.jobs
    ensures j in s'.jobs && s'.jobs[j] == s.jobs[j]
  {
    assert SameJob(s, s', j);
  }

  /** Jobs taken in between and finished again do not count as disturbed. */
  lemma KeptShrink(s: State, s': State, c: Slot, y: set<JobId>, x: set<JobId>)
    requires Kept(s, s', c, y) && Quiet(s', y - x) && (forall j :: j in y - x ==> j !in s.jobs)
    ensures Kept(s, s', c, x)
  {
    hide SameSlot, SameJob, ConnKept;
  }

  lemma StillQuiet(s: State, s': State, c: Slot, x: set<JobId>, j: JobId)
    requires Kept(s, s', c, x) && Quiet(s', x) && j !in s.jobs
    ensures Quiet(s', x + {j})
  {
    hide SameSlot, SameJob, ConnKept;
  }

  /** The response on the wire, if there is one, is in the kernel's hands. */
  ghost predicate RunnerLaunched(s: State, c: Slot) {
    c in s.duty ==> s.duty[c].runner in s.jobs && !s.jobs[s.duty[c].runner].Busy?
  }

  lemma KeptLaunched(s: State, s': State, c: Slot)
    requires Kept(s, s', c, {}) && RunnerLaunched(s, c) && s'.duty == s.duty
    ensures RunnerLaunched(s', c)
  {
    hide SameSlot, ConnKept;
    assert c in s.duty ==> SameJob(s, s', s.duty[c].runner);
  }

  lemma KeptAlso(s: State, s': State, c: Slot, x: set<JobId>, j: JobId)
    requires Kept(s, s', c, x) && j !in x
    ensures j in s.jobs ==> j in s'.jobs && s'.jobs[j] == s.jobs[j]
  {
    hide SameSlot, ConnKept;
    assert j in s.jobs ==> SameJob(s, s', j);
  }

  lemma StillGone(s: State, s': State, c: Slot, x: set<JobId>, j: JobId)
    requires Kept(s, s', c, x) && j !in s.jobs && j !in x
    ensures Quiet(s', {j})
  {
    hide SameSlot, ConnKept;
  }

  lemma KeptAdvance(s: State, j: JobId, core: Job, c: Slot, d: Duty)
    requires c in s.conns
    ensures Kept(s, s.(jobs := s.jobs[j := Busy(core)], duty := s.duty[c := d]), c, {j})
  {
  }

  lemma KeptSplice(s: State, j: JobId, job: Job, n: nat, c: Slot, d: Duty)
    requires c in s.conns
    ensures Kept(s, s.(jobs := s.jobs[j := job], ops := s.ops[j := n], duty := s.duty[c := d]), c, {j})
  {
  }

  /** A connection that is still there is the same object and reads from the same receive. */
  lemma SameReader(s: State, s': State, c: Slot, o: Owner, j: JobId)
    requires Kept(s, s', c, {}) && o.slot == c
    requires Valid(s, o) ==> s.conns[c].readingActive && (s.conns[c].clientFd >= 0 ==> s.conns[c].read == Some(j))
    requires !Valid(s, o) ==> SameSlot(s, s', c)
    ensures Valid(s', o) ==> Valid(s, o) && s'.conns[c].readingActive && (s.conns[c].closePending ==> s'.conns[c].closePending)
    ensures Valid(s', o) && s'.conns[c].clientFd >= 0 ==> s'.conns[c].read in {None, Some(j)}
  {
    hide SameJob;
    assert c !in s.conns ==> SameSlot(s, s', c);
  }

  lemma StillLaunched(s: State, s': State, c: Slot, j: JobId)
    requires Kept(s, s', c, {j}) && RunnerLaunched(s, c) && s'.duty == s.duty && (c in s.duty ==> s.duty[c].runner != j)
    ensures RunnerLaunched(s', c)
  {
    hide SameSlot, ConnKept;
    assert c in s.duty ==> SameJob(s, s', s.duty[c].runner);
  }

  /** No job is half-way through a handler. */
  ghost predicate NoneBusy(s: State) {
    forall j :: j in s.jobs ==> !s.jobs[j].Busy?
  }

  lemma AllDone(s: State, s': State, c: Slot, x: set<JobId>)
    requires NoneBusy(s) && Kept(s, s', c, x) && Quiet(s', x)
    ensures NoneBusy(s')
  {
    hide SameSlot, SameJob, ConnKept;
  }

  lemma QuietAfter(s: State, s': State, x: set<JobId>, j: JobId)
    requires Quiet(s, x - {j}) && s'.jobs == s.jobs - {j}
    ensures Quiet(s', x)
  {
    assert forall i :: i in x && i != j ==> i in x - {j};
  }

  lemma QuietWhole(s: State, x: set<JobId>, j: JobId)
    requires Quiet(s, x - {j}) && Quiet(s, {j})
    ensures Quiet(s, x)
  {
    assert forall i :: i in x && i != j ==> i in x - {j};
  }

  /** The connection has begun to close and nothing is on the wire. */
  predicate Closing(k: Conn) {
    k.closePending && !k.inFlight
  }

  /** How many terminal completions a closing connection still waits for. */
  function Waits(k: Conn): nat {
    (if k.read.Some? then 1 else 0) + (if k.idle.Some? then 1 else 0)
  }

  predicate Tracks(k: Conn, j: JobId) {
    k.read == Some(j) || k.idle == Some(j)
  }

  /** A closing connection keeps closing and never waits for more; the terminal completion of
      something it waits for brings it closer, or frees it. */
  ghost predicate ClosesOn(s: State, s': State, j: JobId, final: bool) {
    forall d :: d in s.conns && d in s'.conns && Closing(s.conns[d]) ==>
                  && Closing(s'.conns[d]) && Waits(s'.conns[d]) <= Waits(s.conns[d])
                  && (final && Tracks(s.conns[d], j) ==> Waits(s'.conns[d]) < Waits(s.conns[d]))
  }

  ghost predicate TrackOk(s: State, d: Slot, j: JobId)
    requires d in s.conns
  {
    && (Closing(s.conns[d]) ==> s.conns[d].readingActive)
    && (Tracks(s.conns[d], j) ==>
          j in s.jobs && (Core(s.jobs[j]).Recv? || Core(s.jobs[j]).Timer?) && Core(s.jobs[j]).owner == Self(s, d))
  }

  ghost predicate TracksOk(s: State, j: JobId) {
    forall d :: d in s.conns ==> TrackOk(s, d, j)
  }

  lemma ClosingProgress(s: State, s': State, c: Slot, x: set<JobId>, j: JobId, final: bool)
    requires Kept(s, s', c, x) && ConnsOk(s') && TracksOk(s, j) && j in s.jobs
    requires s.jobs[j].Recv? || s.jobs[j].Timer? ==>
               && s.jobs[j].owner.slot == c
               && (final && Valid(s, s.jobs[j].owner) && Closing(s.conns[c]) ==> j !in s'.jobs)
    requires !s.jobs[j].Busy?
    ensures ClosesOn(s, s', j, final)
  {
    hide Kept, DutyOk, ConnOk;
    forall d | d in s.conns && d in s'.conns && Closing(s.conns[d])
      ensures Closing(s'.conns[d]) && Waits(s'.conns[d]) <= Waits(s.conns[d])
      ensures final && Tracks(s.conns[d], j) ==> Waits(s'.conns[d]) < Waits(s.conns[d])
    {
      assert TrackOk(s, d, j);
      ClosingStep(s, s', c, x, j, d);
    }
  }

  lemma ClosingStep(s: State, s': State, c: Slot, x: set<JobId>, j: JobId, d: Slot)
    requires Kept(s, s', c, x) && d in s.conns && d in s'.conns && Closing(s.conns[d]) && ConnOk(s', d)
    requires s.conns[d].readingActive
    ensures Closing(s'.conns[d]) && Waits(s'.conns[d]) <= Waits(s.conns[d])
    ensures j !in s'.jobs && Tracks(s.conns[d], j) ==> Waits(s'.conns[d]) < Waits(s.conns[d])
  {
    hide SameJob;
    assert d != c ==> SameSlot(s, s', d);
  }

  lemma NoneTouched(s: State, s': State, c: Slot)
    requires NoneBusy(s) && Kept(s, s', c, {})
    ensures NoneBusy(s')
  {
    hide SameSlot, SameJob, ConnKept;
  }

  lemma OthersUntouched(s: State, s': State, c: Slot)
    requires Kept(s, s', c, {}) && c in s.conns && c in s'.conns
    ensures s'.conns.Keys == s.conns.Keys && Gen(s', c) == Gen(s, c)
    ensures forall d :: d in s.conns && d != c ==> s'.conns[d] == s.conns[d]
  {
    hide SameJob, ConnKept;
    forall d ensures d in s'.conns <==> d in s.conns {
      assert d != c ==> SameSlot(s, s', d);
    }
    forall d | d in s.conns && d != c ensures s'.conns[d] == s.conns[d] {
      assert SameSlot(s, s', d);
    }
  }

  /** A closing connection that waited only for this is freed; one that waited for two waits for
      the other, if it is still there. */
  ghost predicate FreedBy(s: State, s': State, j: JobId, final: bool) {
    forall d :: d in s.conns && Closing(s.conns[d]) && final && Tracks(s.conns[d], j) ==>
                  if Waits(s.conns[d]) == 1 then d !in s'.conns
                  else d in s'.conns ==> Closing(s'.conns[d]) && Waits(s'.conns[d]) == 1
  }

  ghost predicate WaitsOk(s: State) {
    forall d :: d in s.conns && Closing(s.conns[d]) ==> 1 <= Waits(s.conns[d]) <= 2
  }

  lemma ClosedSoon(s: State, s': State, j: JobId, final: bool)
    requires WaitsOk(s) && WaitsOk(s') && ClosesOn(s, s', j, final)
    ensures FreedBy(s, s', j, final)
  {
    hide Waits, Tracks, Closing;
  }

  /** A connection that never armed a receive stays exactly as it is. */
  ghost predicate Strands(s: State, s': State) {
    forall d :: d in s.conns && !s.conns[d].readingActive ==> SameSlot(s, s', d)
  }

  lemma StrandsKept(s: State, s': State, c: Slot, x: set<JobId>)
    requires Kept(s, s', c, x) && (c in s.conns && !s.conns[c].readingActive ==> SameSlot(s, s', c))
    ensures Strands(s, s')
  {
    hide SameSlot, SameJob, ConnKept;
  }

  lemma StrandsSame(s: State)
    ensures Strands(s, s)
  {
  }

  lemma StrandsTrans(s0: State, s1: State, s2: State)
    requires Strands(s0, s1) && Strands(s1, s2)
    ensures Strands(s0, s2)
  {
    forall d | d in s0.conns && !s0.conns[d].readingActive ensures SameSlot(s0, s2, d) {
      assert SameSlot(s0, s1, d) && SameSlot(s1, s2, d);
    }
  }

  lemma OthersSame(s: State, s': State, c: Slot)
    requires Kept(s, s', c, {})
    ensures forall d :: d != c ==> SameSlot(s, s', d)
  {
    hide SameSlot, SameJob, ConnKept;
  }

  lemma KeptWiden(s: State, s': State, c: Slot, x: set<JobId>, y: set<JobId>)
    requires Kept(s, s', c, x) && x <= y
    ensures Kept(s, s', c, y)
  {
    hide SameSlot;
  }

  lemma KeptTrans(s0: State, s1: State, s2: State, c: Slot, x: set<JobId>)
    requires Kept(s0, s1, c, x) && Kept(s1, s2, c, x)
    ensures Kept(s0, s2, c, x)
  {
    forall d | d != c ensures SameSlot(s0, s2, d) {
      assert SameSlot(s0, s1, d) && SameSlot(s1, s2, d);
    }
    forall j | j in s0.jobs && j !in x ensures SameJob(s0, s2, j) {
      assert SameJob(s0, s1, j) && SameJob(s1, s2, j);
    }
    assert forall j :: j in s2.jobs && s2.jobs[j].Busy? && j !in x ==> j in s1.jobs && s1.jobs[j].Busy?;
  }

  /** Work that takes job `j` from the pool, and leaves no job of `x` or `j` between submissions. */
  lemma KeptNewJob(s: State, s1: State, s2: State, c: Slot, j: JobId, x: set<JobId>, y: set<JobId>)
    requires y == x + {j} && j !in s.jobs && Kept(s, s1, c, {j}) && Kept(s1, s2, c, y) && Quiet(s2, y)
    ensures Kept(s, s2, c, x) && Quiet(s2, x)
  {
    hide Kept;
    KeptWiden(s, s1, c, {j}, y);
    KeptTrans(s, s1, s2, c, y);
    KeptShrink(s, s2, c, y, x);
  }

  lemma Gone(s: State, f: JobId)
    requires f !in s.jobs
    ensures Quiet(s, {f})
  {
  }
}
