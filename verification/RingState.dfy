/**
 Everything one ring thread holds: the live connections and jobs in their pools, the
 operations the kernel has not completed, and the open descriptors. The invariant says which
 of them may refer to which.
 */
module RingState {
  import opened Wrappers
  import opened HttpTypes
  import RangeRequest
  import SpliceFile

  type Slot = nat
  type JobId = nat

  /** A connection as a job remembers it: its pool slot and that slot's generation. */
  datatype Owner = Owner(slot: Slot, gen: nat)

  /** The fields of HttpConnectionJob. A descriptor of -1 means none. */
  datatype Conn = Conn(
    clientFd: int,
    deferredFd: int,
    buffer: string,
    readingActive: bool,
    keepAlive: bool,
    advertise: bool,
    inFlight: bool,
    closePending: bool,
    read: Option<JobId>,
    readCancel: bool,
    idle: Option<JobId>,
    idleCancel: bool,
    range: Option<RangeRequest.ByteRangeSpec>)

  /** What a WriteJob's callbacks do. */
  datatype Then = ToConnection(keep: bool) | FileHeaders(file: JobId) | FileError(file: JobId)

  /** A file as fstat saw it, and the part of it being served. */
  datatype Source = Source(fd: int, content: string, offset: nat, length: nat)

  /**
   A job in its pool. `Busy` is a job whose completion is being handled, or that has not been
   submitted yet: the kernel does not hold it. Write, File and Splice jobs hold a raw pointer
   to their connection; `owner.gen` is not in the source, it is there to state that the
   pointer is never stale.
   */
  datatype Job =
    | Recv(fd: int, owner: Owner)
    | Timer(owner: Owner)
    | Cancel(target: JobId)
    | Write(fd: int, data: string, written: nat, then_: Then, owner: Owner)
    | File(fd: int, response: HttpResponse, keep: bool, source: Source, owner: Owner)
    | Splice(fd: int, file: JobId, src: Source, world: SpliceFile.World, owner: Owner)
    | Busy(was: Job)

  /** Who holds an open descriptor. */
  datatype Holder = Socket(owner: Owner) | OpenFile(job: JobId)

  /** The response on the wire: the job the kernel will complete next for it, the HTTPFileJob
      behind that job if there is one, the keep-alive decision captured when the response was
      started, and the bytes the socket is still owed. */
  datatype Duty = Duty(runner: JobId, file: Option<JobId>, keep: bool, rest: string)

  datatype State = State(
    conns: map<Slot, Conn>,
    gens: map<Slot, nat>,
    jobs: map<JobId, Job>,
    ops: multiset<JobId>,
    fds: map<int, Holder>,
    duty: map<Slot, Duty>)

  function Gen(s: State, c: Slot): nat {
    if c in s.gens then s.gens[c] else 0
  }

  /** PoolManager::isValid: the pool slot still holds the connection the job was armed for. */
  predicate Valid(s: State, o: Owner) {
    o.slot in s.conns && Gen(s, o.slot) == o.gen
  }

  function Self(s: State, c: Slot): Owner {
    Owner(c, Gen(s, c))
  }

  function Core(j: Job): Job {
    if j.Busy? then j.was else j
  }

  function TheFd(k: Conn): int {
    if k.clientFd >= 0 then k.clientFd else k.deferredFd
  }

  /** A stale owner can never become valid again. */
  ghost predicate OwnerOk(s: State, o: Owner) {
    o.gen < Gen(s, o.slot) || Valid(s, o)
  }

  // ---------------------------------------------------------------------------------------
  // The invariant

  /** What holds of a job by itself: how many operations name it, and whom it may point at. */
  ghost predicate JobOk(s: State, j: JobId)
    requires j in s.jobs
  {
    match s.jobs[j]
    case Recv(fd, o) =>
      s.ops[j] == 1 && OwnerOk(s, o) &&
      (Valid(s, o) && s.conns[o.slot].clientFd >= 0 ==> s.conns[o.slot].read == Some(j))
    case Timer(o) => s.ops[j] == 1 && OwnerOk(s, o)
    case Cancel(_) => s.ops[j] == 1
    case Write(fd, _, _, _, o) =>
      s.ops[j] == 1 && Valid(s, o) && o.slot in s.duty && s.duty[o.slot].runner == j
    case File(fd, _, _, src, o) =>
      s.ops[j] == 0 && Valid(s, o) && o.slot in s.duty && s.duty[o.slot].file == Some(j)
    case Splice(fd, _, _, w, o) =>
      s.ops[j] == |w.legs| && !w.freed && Valid(s, o) && o.slot in s.duty && s.duty[o.slot].runner == j
    case Busy(_) => s.ops[j] == 0
  }

  /** The pointers a connection keeps, and its one descriptor. */
  ghost predicate ConnOk(s: State, c: Slot)
    requires c in s.conns
  {
    var k, me := s.conns[c], Self(s, c);
    && (k.clientFd >= 0 <==> k.deferredFd < 0)
    && TheFd(k) in s.fds && s.fds[TheFd(k)] == Socket(me)
    && (k.read.Some? ==> k.read.value in s.jobs && Core(s.jobs[k.read.value]) == Recv(TheFd(k), me))
    && (k.idle.Some? ==> k.idle.value in s.jobs && Core(s.jobs[k.idle.value]) == Timer(me))
    && (k.inFlight ==> k.clientFd >= 0)
    && (k.clientFd < 0 ==> k.closePending && !k.inFlight && (k.read.Some? ==> k.readCancel))
    && (k.readCancel ==> k.clientFd < 0)
    && (!k.readingActive ==> k.read.None? && k.idle.None? && !k.closePending && !k.inFlight)
  }

  /** The job on the wire and the file job behind it belong to this connection and its socket. */
  ghost predicate DutyOk(s: State, c: Slot)
    requires c in s.duty
  {
    var d, me := s.duty[c], Self(s, c);
    && c in s.conns && s.conns[c].inFlight
    && d.runner in s.jobs && RunnerOk(Core(s.jobs[d.runner]), d, s.conns[c].clientFd, me)
    && (d.file.Some? ==>
          && d.file.value in s.jobs && d.file.value != d.runner
          && FileOk(s.jobs[d.file.value], Core(s.jobs[d.runner]), d, s.conns[c].clientFd, me))
  }

  /** The bytes of the file the response consists of. */
  function Part(src: Source): string
    requires src.offset + src.length <= |src.content|
  {
    src.content[src.offset..src.offset + src.length]
  }

  ghost predicate RunnerOk(run: Job, d: Duty, fd: int, me: Owner) {
    match run
    case Write(wfd, data, written, then_, o) =>
      && wfd == fd && o == me && written <= |data|
      && (match then_
          case ToConnection(keep) => d.file.None? && keep == d.keep
          case FileHeaders(f) => d.file == Some(f)
          case FileError(f) => d.file == Some(f))
      && (!then_.FileHeaders? ==> d.rest == data[written..])
    case Splice(sfd, f, src, w, o) =>
      && sfd == fd && o == me && d.file == Some(f)
      && src.offset + src.length <= |src.content|
      && SpliceFile.Inv(w, src.content, src.offset, src.length)
      && w.sent + d.rest == Part(src)
    case _ => false
  }

  ghost predicate FileOk(f: Job, run: Job, d: Duty, fd: int, me: Owner) {
    && f.File? && f.fd == fd && f.owner == me && f.keep == d.keep
    && f.source.offset + f.source.length <= |f.source.content|
    && (run.Splice? ==> run.src == f.source)
    && (run.Splice? || (run.Write? && run.then_.FileHeaders?) <==> f.source.fd >= 0)
    && (run.Write? && run.then_.FileHeaders? && run.written <= |run.data| ==>
          d.rest == run.data[run.written..] + Part(f.source))
  }

  /** What a connection promises between completions. While one connection is being torn down
      or is starting a response, this may be suspended for it. */
  ghost predicate Settled(s: State, c: Slot)
    requires c in s.conns
  {
    var k := s.conns[c];
    && (k.inFlight <==> c in s.duty)
    && (k.closePending && !k.inFlight ==> k.read.Some? || k.idle.Some?)
    && (k.closePending && !k.inFlight && k.clientFd >= 0 ==> k.read.None?)
    && (k.closePending && !k.inFlight ==> (k.read.Some? ==> k.readCancel) && (k.idle.Some? ==> k.idleCancel))
    && (k.readingActive && !k.closePending ==> k.read.Some?)
  }

  /** Every open descriptor is held by exactly the object that will close it. */
  ghost predicate FdOk(s: State, fd: int)
    requires fd in s.fds
  {
    fd >= 0 &&
    match s.fds[fd]
    case Socket(o) => Valid(s, o) && TheFd(s.conns[o.slot]) == fd
    case OpenFile(j) => j in s.jobs && Core(s.jobs[j]).File? && Core(s.jobs[j]).source.fd == fd
  }

  /** ... and a file job's descriptor is open. */
  ghost predicate SourceOk(s: State, j: JobId)
    requires j in s.jobs
  {
    Core(s.jobs[j]).File? && Core(s.jobs[j]).source.fd >= 0 ==>
      Core(s.jobs[j]).source.fd in s.fds && s.fds[Core(s.jobs[j]).source.fd] == OpenFile(j)
  }

  ghost predicate JobsOk(s: State) {
    && (forall j :: j in s.jobs ==> JobOk(s, j))
    && (forall j :: j in s.ops ==> j in s.jobs)
  }

  ghost predicate FdsOk(s: State) {
    && (forall fd :: fd in s.fds ==> FdOk(s, fd))
    && (forall j :: j in s.jobs ==> SourceOk(s, j))
  }

  ghost predicate ConnsOk(s: State) {
    && (forall c :: c in s.conns ==> ConnOk(s, c))
    && (forall c :: c in s.duty ==> DutyOk(s, c))
  }

  ghost predicate AllSettled(s: State, except: set<Slot>) {
    forall c :: c in s.conns && c !in except ==> Settled(s, c)
  }

  ghost predicate Inv(s: State, except: set<Slot>) {
    JobsOk(s) && ConnsOk(s) && FdsOk(s) && AllSettled(s, except)
  }
}
