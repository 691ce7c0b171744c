/**
 The zero-copy file transfer: a pair of linked splice operations (file to pipe, pipe to
 socket) per 64 KiB chunk, driven by the completions of the kernel.

 `Job` is the state of one SpliceFileJob, `OnCompletion` what one completion does to it.
 `World` adds what the kernel holds: the outstanding legs in link order, the bytes in the
 pipe and the bytes the socket has accepted. A run is any sequence of completions the
 kernel may deliver, with any pattern of submission-queue shortage.
 */
module SpliceFile {
  import opened Wrappers

  const SPLICE_CHUNK_SIZE: nat := 64 * 1024

  const EIO := 5
  const EAGAIN := 11
  const ENOMEM := 12
  const ECANCELED := 125

  datatype State = CreatingPipe | SplicingFileToPipe | SplicingPipeToSocket

  /** The fields of the job. Byte counters are integers; that they never go negative is proved. */
  datatype Job = Job(
    state: State,
    offset: int,
    remaining: int,
    totalTransferred: int,
    bytesInPipe: int,
    pending: int,
    errorPending: bool,
    retryPending: bool,
    deferredError: int,
    eofReached: bool,
    writeEndOpen: bool)

  /** One submitted splice operation. A file leg is the head of a linked pair. */
  datatype Leg = FileLeg(offset: int, length: int) | SocketLeg(length: int)

  /** Which of the two callbacks ran, with its argument. */
  datatype Notice = Complete(bytes: int) | Error(code: int)

  /** Whether the ring hands out a submission entry at the first and second request of one turn. */
  datatype Grants = Grants(first: bool, second: bool)

  /** What one call does: the new fields, the legs it submitted, the callback it ran, and
      whether the job's pool slot is released when it returns. */
  datatype Turn = Turn(job: Job, submitted: seq<Leg>, notice: Option<Notice>, free: bool)

  function Min(a: int, b: int): int {
    if a <= b then a else b
  }

  function NewJob(offset: nat, length: nat): Job {
    Job(CreatingPipe, offset, length, 0, 0, 0, false, false, 0, false, false)
  }

  /** Runs the error callback and releases the job. */
  function Fail(j: Job, code: int): Turn {
    Turn(j, [], Some(Error(code)), true)
  }

  function LinkedPair(j: Job, g: Grants): Turn {
    var chunk := Min(SPLICE_CHUNK_SIZE, j.remaining);
    if chunk == 0 then
      Turn(j, [], Some(Complete(j.totalTransferred)), true)
    else if !g.first then
      Fail(j, -ENOMEM)
    else if !g.second then
      Turn(j.(errorPending := true, pending := 1), [FileLeg(j.offset, chunk)], None, false)
    else
      Turn(j.(state := SplicingFileToPipe, pending := 2),
           [FileLeg(j.offset, chunk), SocketLeg(chunk)], None, false)
  }

  function Drained(j: Job, g: Grants): Turn {
    if !g.first then
      Fail(j, -ENOMEM)
    else
      Turn(j.(state := SplicingPipeToSocket, pending := 1), [SocketLeg(j.bytesInPipe)], None, false)
  }

  /** Resubmits the leg the current state names. */
  function Resubmitted(j: Job, g: Grants): Turn {
    if !g.first then
      Fail(j, -ENOMEM)
    else
      match j.state
      case SplicingFileToPipe =>
        Turn(j, [FileLeg(j.offset, Min(SPLICE_CHUNK_SIZE, j.remaining))], None, false)
      case SplicingPipeToSocket =>
        Turn(j, [SocketLeg(j.bytesInPipe)], None, false)
      case CreatingPipe =>
        Turn(j, [], None, false)
  }

  function OnNegative(j: Job, res: int, g: Grants): Turn
    requires res < 0
  {
    if -res == ECANCELED then
      if j.pending > 0 then
        Turn(j, [], None, false)
      else if j.retryPending then
        LinkedPair(j.(retryPending := false), g)
      else
        Fail(j.(deferredError := 0), if j.deferredError != 0 then j.deferredError else ECANCELED)
    else if -res == EAGAIN then
      if j.pending > 0 then
        Turn(j.(retryPending := true), [], None, false)
      else if j.errorPending then
        Fail(j, ENOMEM)
      else
        Resubmitted(j.(pending := j.pending + 1), g)
    else if j.pending > 0 then
      Turn(j.(deferredError := -res), [], None, false)
    else
      Fail(j, -res)
  }

  function OnFileBytes(j: Job, res: int): Turn
    requires res >= 0
  {
    if res == 0 then
      Turn(j.(eofReached := true, deferredError := EIO, writeEndOpen := false,
              state := SplicingPipeToSocket), [], None, false)
    else
      Turn(j.(offset := j.offset + res,
              bytesInPipe := j.bytesInPipe + res,
              remaining := if j.remaining > 0 then j.remaining - Min(j.remaining, res) else j.remaining,
              state := SplicingPipeToSocket), [], None, false)
  }

  function OnSocketBytes(j0: Job, res: int, g: Grants): Turn
    requires res >= 0
  {
    var j := j0.(totalTransferred := j0.totalTransferred + res, bytesInPipe := j0.bytesInPipe - res);
    if j.bytesInPipe > 0 then
      Drained(j, g)
    else if j.eofReached && j.remaining > 0 then
      Fail(j.(deferredError := 0), if j.deferredError != 0 then j.deferredError else EIO)
    else if j.remaining > 0 then
      LinkedPair(j, g)
    else
      Turn(j, [], Some(Complete(j.totalTransferred)), true)
  }

  /** One completion. */
  function OnCompletion(j0: Job, res: int, g: Grants): Turn {
    if j0.pending <= 0 then
      Turn(j0, [], None, false)
    else
      var j := j0.(pending := j0.pending - 1);
      if res < 0 then
        OnNegative(j, res, g)
      else if j.errorPending && j.pending == 0 then
        Fail(j, ENOMEM)
      else
        match j.state
        case SplicingFileToPipe => OnFileBytes(j, res)
        case SplicingPipeToSocket => OnSocketBytes(j, res, g)
        case CreatingPipe => Turn(j, [], None, false)
  }

  /** start(): the pipe is created synchronously, then the first pair is submitted. */
  function OnStart(j: Job, pipeOk: bool, g: Grants): Turn {
    if !pipeOk then
      Fail(j, ENOMEM)
    else
      LinkedPair(j.(writeEndOpen := true), g)
  }

  // ---------------------------------------------------------------------------------------
  // The kernel

  /** `doomed`: the head of the pair failed, so the kernel will cancel the partner. */
  datatype World = World(
    job: Job,
    legs: seq<Leg>,
    doomed: bool,
    pipe: string,
    sent: string,
    notices: seq<Notice>,
    freed: bool)

  /** The byte range of the file a transfer was asked for. */
  ghost predicate ValidRange(file: string, start: nat, length: nat) {
    start + length <= |file|
  }

  /** What the kernel may report for the oldest outstanding leg: never more bytes than asked
      for, never more than the source holds, and a cancelled partner after a failed head. */
  predicate KernelAllows(w: World, file: string, res: int) {
    && w.legs != []
    && (w.doomed ==> res == -ECANCELED)
    && match w.legs[0]
       case FileLeg(off, len) => res <= len && 0 <= off && (res > 0 ==> off + res <= |file|)
       case SocketLeg(len) => res <= len && (res > 0 ==> res <= |w.pipe|)
  }

  function PipeAfter(w: World, file: string, res: int): string
    requires KernelAllows(w, file, res)
  {
    if res <= 0 then w.pipe
    else match w.legs[0]
      case FileLeg(off, _) => w.pipe + file[off..off + res]
      case SocketLeg(_) => w.pipe[res..]
  }

  function SentAfter(w: World, file: string, res: int): string
    requires KernelAllows(w, file, res)
  {
    if res <= 0 then w.sent
    else match w.legs[0]
      case FileLeg(_, _) => w.sent
      case SocketLeg(_) => w.sent + w.pipe[..res]
  }

  /** The world after a turn: submitted legs join the outstanding ones, a callback is recorded. */
  function Absorb(t: Turn, legs: seq<Leg>, doomed: bool, pipe: string, sent: string,
                  notices: seq<Notice>): World {
    World(t.job, legs + t.submitted, doomed, pipe, sent,
          notices + (if t.notice.Some? then [t.notice.value] else []), t.free)
  }

  function Started(start: nat, length: nat, pipeOk: bool, g: Grants): World {
    Absorb(OnStart(NewJob(start, length), pipeOk, g), [], false, [], [], [])
  }

  function Step(w: World, file: string, res: int, g: Grants): World
    requires KernelAllows(w, file, res)
  {
    Absorb(OnCompletion(w.job, res, g), w.legs[1..],
           w.legs[0].FileLeg? && |w.legs| > 1 && res < 0,
           PipeAfter(w, file, res), SentAfter(w, file, res), w.notices)
  }

  // ---------------------------------------------------------------------------------------
  // The invariant

  /** Every byte is sent, in the pipe, or still to be read, and each is the right byte. */
  ghost predicate Conserved(w: World, file: string, start: nat, length: nat)
    requires ValidRange(file, start, length)
  {
    var j := w.job;
    && 0 <= j.totalTransferred && 0 <= j.bytesInPipe && 0 <= j.remaining
    && j.totalTransferred + j.bytesInPipe + j.remaining == length
    && j.offset == start + j.totalTransferred + j.bytesInPipe
    && w.sent == file[start..start + j.totalTransferred]
    && w.pipe == file[start + j.totalTransferred..j.offset]
  }

  /** A fresh linked pair is outstanding. */
  ghost predicate PairOutstanding(w: World) {
    var j := w.job;
    && j.pending == 2 && !w.doomed && !j.retryPending && j.deferredError == 0
    && j.state == SplicingFileToPipe && j.bytesInPipe == 0 && 0 < j.remaining
    && var chunk := Min(SPLICE_CHUNK_SIZE, j.remaining);
       w.legs == [FileLeg(j.offset, chunk), SocketLeg(chunk)]
  }

  /** The head of the pair failed; only the partner's cancellation is still to come. */
  ghost predicate PartnerDoomed(w: World) {
    var j := w.job;
    && j.pending == 1 && w.doomed && |w.legs| == 1 && w.legs[0].SocketLeg?
    && j.state == SplicingFileToPipe && j.bytesInPipe == 0 && 0 < j.remaining
    && (j.retryPending ==> j.deferredError == 0)
  }

  /** Bytes are in the pipe and one pipe-to-socket leg will move them. */
  ghost predicate SocketOutstanding(w: World) {
    var j := w.job;
    && j.pending == 1 && !w.doomed && |w.legs| == 1 && w.legs[0].SocketLeg?
    && j.state == SplicingPipeToSocket && 0 < j.bytesInPipe && !j.retryPending && j.deferredError == 0
  }

  /** The file ended early: the pipe is empty, its write end closed, the partner still owed. */
  ghost predicate TruncatedOutstanding(w: World) {
    var j := w.job;
    && j.pending == 1 && !w.doomed && |w.legs| == 1 && w.legs[0].SocketLeg?
    && j.state == SplicingPipeToSocket && j.bytesInPipe == 0 && 0 < j.remaining
    && j.deferredError == EIO && !j.writeEndOpen && !j.retryPending
  }

  /** The second entry of a pair could not be had; its head runs alone. */
  ghost predicate HalfOutstanding(w: World) {
    var j := w.job;
    && j.pending == 1 && !w.doomed && |w.legs| == 1 && w.legs[0].FileLeg? && w.legs[0].offset == j.offset
    && j.bytesInPipe == 0 && 0 < j.remaining && !j.retryPending && j.deferredError == 0
  }

  ghost predicate Running(w: World) {
    && !w.freed && w.notices == []
    && (w.job.errorPending <==> HalfOutstanding(w))
    && (w.job.eofReached <==> TruncatedOutstanding(w))
    && (PairOutstanding(w) || PartnerDoomed(w) || SocketOutstanding(w) || TruncatedOutstanding(w)
        || HalfOutstanding(w))
  }

  /** A finished job ran exactly one callback and left nothing in the kernel; a success means
      the whole range was sent. */
  ghost predicate Finished(w: World, file: string, start: nat, length: nat)
    requires ValidRange(file, start, length)
  {
    && w.freed && |w.notices| == 1 && w.legs == []
    && w.sent <= file[start..start + length]
    && (w.notices[0].Complete? ==> w.notices[0].bytes == length && w.sent == file[start..start + length])
  }

  ghost predicate Inv(w: World, file: string, start: nat, length: nat)
    requires ValidRange(file, start, length)
  {
    if w.freed then Finished(w, file, start, length)
    else Running(w) && Conserved(w, file, start, length)
  }

  lemma StartedInv(file: string, start: nat, length: nat, pipeOk: bool, g: Grants)
    requires ValidRange(file, start, length)
    ensures Inv(Started(start, length, pipeOk, g), file, start, length)
  {
  }

  /** How a transfer starts: it runs unless something could not be had, and one of no bytes is
      complete at once. */
  lemma StartedOutcome(start: nat, length: nat, pipeOk: bool, g: Grants)
    ensures var w := Started(start, length, pipeOk, g);
            && (w.freed ==> |w.notices| == 1)
            && (length > 0 && pipeOk && g.first ==> !w.freed)
            && (length > 0 && w.freed ==> w.notices[0].Error?)
            && (length == 0 ==> w.freed && (pipeOk <==> w.notices[0].Complete?))
            && w.sent == []
  {
  }

  /** A new pair may be started whenever the pipe is empty. */
  lemma StartLinkedInv(j: Job, g: Grants, file: string, start: nat, length: nat, sent: string)
    requires ValidRange(file, start, length)
    requires Conserved(World(j, [], false, [], sent, [], false), file, start, length)
    requires j.bytesInPipe == 0 && !j.errorPending && !j.retryPending && !j.eofReached && j.deferredError == 0
    ensures Inv(Absorb(LinkedPair(j, g), [], false, [], sent, []), file, start, length)
  {
  }

  lemma FileBytes(w: World, file: string, start: nat, length: nat, res: int, g: Grants)
    requires ValidRange(file, start, length)
    requires Conserved(w, file, start, length) && PairOutstanding(w) && KernelAllows(w, file, res)
    ensures res <= w.job.remaining && Step(w, file, res, g).sent == w.sent
    ensures Step(w, file, res, g).pipe == if res <= 0 then [] else file[w.job.offset..w.job.offset + res]
  {
    hide OnCompletion;
    assert w.pipe == [];
  }

  lemma PairStep(w: World, file: string, start: nat, length: nat, res: int, g: Grants)
    requires ValidRange(file, start, length)
    requires Inv(w, file, start, length) && PairOutstanding(w) && !w.freed && KernelAllows(w, file, res)
    ensures Inv(Step(w, file, res, g), file, start, length)
  {
    hide PipeAfter, SentAfter;
    FileBytes(w, file, start, length, res, g);
    assert w.legs[1..] == [w.legs[1]];
  }

  lemma DoomedStep(w: World, file: string, start: nat, length: nat, res: int, g: Grants)
    requires ValidRange(file, start, length)
    requires Inv(w, file, start, length) && PartnerDoomed(w) && !w.freed && KernelAllows(w, file, res)
    ensures Inv(Step(w, file, res, g), file, start, length)
  {
    if w.job.retryPending {
      StartLinkedInv(w.job.(pending := 0, retryPending := false), g, file, start, length, w.sent);
    }
  }

  lemma SocketRetry(w: World, file: string, start: nat, length: nat, res: int, g: Grants)
    requires ValidRange(file, start, length)
    requires Inv(w, file, start, length) && SocketOutstanding(w) && !w.freed && KernelAllows(w, file, res)
    requires res < 0
    ensures Inv(Step(w, file, res, g), file, start, length)
  {
  }

  /** Bytes move from the front of the pipe to the end of the socket stream. */
  lemma SocketMoves(w: World, file: string, start: nat, length: nat, res: nat)
    requires ValidRange(file, start, length)
    requires Conserved(w, file, start, length) && res <= w.job.bytesInPipe
    ensures w.sent + w.pipe[..res] == file[start..start + w.job.totalTransferred + res]
    ensures w.pipe[res..] == file[start + w.job.totalTransferred + res..w.job.offset]
  {
  }

  lemma SocketStep(w: World, file: string, start: nat, length: nat, res: int, g: Grants)
    requires ValidRange(file, start, length)
    requires Inv(w, file, start, length) && SocketOutstanding(w) && !w.freed && KernelAllows(w, file, res)
    ensures Inv(Step(w, file, res, g), file, start, length)
  {
    hide Inv, Step;
    if res < 0 {
      SocketRetry(w, file, start, length, res, g);
    } else {
      if w.job.bytesInPipe == res {
        SocketEmptied(w, file, start, length, res, g);
      } else {
        SocketPartial(w, file, start, length, res, g);
      }
    }
  }

  lemma SocketBytes(w: World, file: string, start: nat, length: nat, res: nat, g: Grants)
    requires ValidRange(file, start, length)
    requires Conserved(w, file, start, length) && SocketOutstanding(w) && KernelAllows(w, file, res)
    ensures res <= w.job.bytesInPipe
    ensures Step(w, file, res, g).sent == file[start..start + w.job.totalTransferred + res]
    ensures Step(w, file, res, g).pipe == file[start + w.job.totalTransferred + res..w.job.offset]
  {
    hide OnCompletion;
    SocketMoves(w, file, start, length, res);
  }

  lemma SocketPartial(w: World, file: string, start: nat, length: nat, res: nat, g: Grants)
    requires ValidRange(file, start, length)
    requires Inv(w, file, start, length) && SocketOutstanding(w) && !w.freed && KernelAllows(w, file, res)
    requires res != w.job.bytesInPipe
    ensures Inv(Step(w, file, res, g), file, start, length)
  {
    hide PipeAfter, SentAfter;
    SocketBytes(w, file, start, length, res, g);
    assert w.legs[1..] == [];
  }

  lemma SocketEmptied(w: World, file: string, start: nat, length: nat, res: int, g: Grants)
    requires ValidRange(file, start, length)
    requires Inv(w, file, start, length) && SocketOutstanding(w) && !w.freed && KernelAllows(w, file, res)
    requires res == w.job.bytesInPipe
    ensures Inv(Step(w, file, res, g), file, start, length)
  {
    hide PipeAfter, SentAfter;
    SocketBytes(w, file, start, length, res, g);
    var j := w.job.(pending := 0, totalTransferred := w.job.totalTransferred + res, bytesInPipe := 0);
    StartLinkedInv(j, g, file, start, length, Step(w, file, res, g).sent);
    assert w.legs[1..] == [];
  }

  lemma LastLegStep(w: World, file: string, start: nat, length: nat, res: int, g: Grants)
    requires ValidRange(file, start, length)
    requires Inv(w, file, start, length) && !w.freed && KernelAllows(w, file, res)
    requires TruncatedOutstanding(w) || HalfOutstanding(w)
    ensures Inv(Step(w, file, res, g), file, start, length)
  {
  }

  lemma StepInv(w: World, file: string, start: nat, length: nat, res: int, g: Grants)
    requires ValidRange(file, start, length)
    requires Inv(w, file, start, length) && !w.freed && KernelAllows(w, file, res)
    ensures Inv(Step(w, file, res, g), file, start, length)
  {
    hide Step, Conserved, KernelAllows;
    if PairOutstanding(w) {
      PairStep(w, file, start, length, res, g);
    } else if PartnerDoomed(w) {
      DoomedStep(w, file, start, length, res, g);
    } else if SocketOutstanding(w) {
      SocketStep(w, file, start, length, res, g);
    } else {
      LastLegStep(w, file, start, length, res, g);
    }
  }

  /** What a completion adds to the socket is the next part of the range. */
  lemma StepSends(w: World, file: string, start: nat, length: nat, res: int, g: Grants)
    requires ValidRange(file, start, length)
    requires Inv(w, file, start, length) && !w.freed && KernelAllows(w, file, res)
    ensures var w', part := Step(w, file, res, g), file[start..start + length];
            && w.legs != [] && w.sent <= w'.sent <= part && w'.sent == SentAfter(w, file, res)
            && (w'.freed ==> |w.legs| == 1 && |w'.notices| == 1 && (w'.notices[0].Complete? ==> w'.sent == part))
  {
    hide OnCompletion, Running;
    StepInv(w, file, start, length, res, g);
  }

  // ---------------------------------------------------------------------------------------
  // Whole runs

  datatype Completion = Completion(res: int, grants: Grants)

  ghost predicate Legal(w: World, file: string, run: seq<Completion>)
    decreases |run|
  {
    run == [] || (!w.freed && KernelAllows(w, file, run[0].res)
                  && Legal(Step(w, file, run[0].res, run[0].grants), file, run[1..]))
  }

  ghost function After(w: World, file: string, run: seq<Completion>): World
    requires Legal(w, file, run)
    decreases |run|
  {
    if run == [] then w else After(Step(w, file, run[0].res, run[0].grants), file, run[1..])
  }

  lemma {:induction false} RunInv(w: World, file: string, start: nat, length: nat, run: seq<Completion>)
    requires ValidRange(file, start, length)
    requires Inv(w, file, start, length) && Legal(w, file, run)
    ensures Inv(After(w, file, run), file, start, length)
    decreases |run|
  {
    hide Inv, Step;
    if run != [] {
      StepInv(w, file, start, length, run[0].res, run[0].grants);
      RunInv(Step(w, file, run[0].res, run[0].grants), file, start, length, run[1..]);
    }
  }

  /** Bytes are conserved at every point of every run: while the job lives, what the socket
      holds, what the pipe holds and what is still to be read make up the requested range. */
  lemma TransferConserves(file: string, start: nat, length: nat, pipeOk: bool, g: Grants, run: seq<Completion>)
    requires ValidRange(file, start, length)
    requires Legal(Started(start, length, pipeOk, g), file, run)
    ensures var w := After(Started(start, length, pipeOk, g), file, run);
            && w.sent <= file[start..start + length]
            && (!w.freed ==>
                  && w.job.totalTransferred == |w.sent|
                  && w.job.bytesInPipe == |w.pipe|
                  && w.job.offset == start + |w.sent| + |w.pipe|
                  && 0 <= w.job.remaining == length - |w.sent| - |w.pipe|
                  && w.sent + w.pipe == file[start..w.job.offset])
  {
    hide After, Legal, Started, Running;
    StartedInv(file, start, length, pipeOk, g);
    RunInv(Started(start, length, pipeOk, g), file, start, length, run);
    var w := After(Started(start, length, pipeOk, g), file, run);
    if !w.freed {
      assert w.sent + w.pipe == file[start..w.job.offset];
    }
  }

  /** Exactly one callback, exactly when the job is released, never with a leg outstanding;
      and a job that has not finished always has a completion to wait for. */
  lemma TransferNotifiesOnce(file: string, start: nat, length: nat, pipeOk: bool, g: Grants, run: seq<Completion>)
    requires ValidRange(file, start, length)
    requires Legal(Started(start, length, pipeOk, g), file, run)
    ensures var w := After(Started(start, length, pipeOk, g), file, run);
            && (w.freed <==> |w.notices| == 1)
            && (w.freed <==> w.legs == [])
            && |w.notices| <= 1 && |w.legs| <= 2
            && (!w.freed ==> |w.legs| == w.job.pending)
            && (w.notices != [] && w.notices[0].Complete? ==>
                  w.notices[0].bytes == length && w.sent == file[start..start + length])
  {
    hide After, Legal, Started;
    StartedInv(file, start, length, pipeOk, g);
    RunInv(Started(start, length, pipeOk, g), file, start, length, run);
  }

  ghost function Work(w: World): int {
    2 * w.job.remaining + w.job.bytesInPipe
  }

  /** No completion adds work, and one that moves bytes removes some (or ends the transfer). */
  lemma StepWork(w: World, file: string, start: nat, length: nat, res: int, g: Grants)
    requires ValidRange(file, start, length)
    requires Inv(w, file, start, length) && !w.freed && KernelAllows(w, file, res)
    ensures var w' := Step(w, file, res, g);
            w'.freed || (Work(w') <= Work(w) && (res > 0 ==> Work(w') < Work(w)))
  {
    hide PipeAfter, SentAfter;
    if SocketOutstanding(w) {
      assert res <= w.job.bytesInPipe;
    } else if PairOutstanding(w) {
      assert res <= w.job.remaining;
    }
  }

  ghost function Moves(run: seq<Completion>): nat {
    if run == [] then 0 else (if run[0].res > 0 then 1 else 0) + Moves(run[1..])
  }

  lemma {:induction false} RunMoves(w: World, file: string, start: nat, length: nat, run: seq<Completion>)
    requires ValidRange(file, start, length)
    requires Inv(w, file, start, length) && Legal(w, file, run) && !w.freed
    ensures Moves(run) <= Work(w) + 1
    decreases |run|
  {
    hide Step;
    if run != [] {
      var w' := Step(w, file, run[0].res, run[0].grants);
      StepInv(w, file, start, length, run[0].res, run[0].grants);
      StepWork(w, file, start, length, run[0].res, run[0].grants);
      if w'.freed {
        assert run[1..] == [];
      } else {
        RunMoves(w', file, start, length, run[1..]);
      }
    }
  }

  /** Every run moves bytes only finitely often: at most twice per byte, and once more for the
      head of a half-submitted pair. */
  lemma TransferMoves(file: string, start: nat, length: nat, pipeOk: bool, g: Grants, run: seq<Completion>)
    requires ValidRange(file, start, length)
    requires Legal(Started(start, length, pipeOk, g), file, run)
    ensures Moves(run) <= 2 * length + 1
  {
    hide Step;
    StartedInv(file, start, length, pipeOk, g);
    var w := Started(start, length, pipeOk, g);
    if !w.freed {
      RunMoves(w, file, start, length, run);
    } else {
      assert run == [];
    }
  }

  // ---------------------------------------------------------------------------------------
  // The job object, updated in place

  /** `submitted` and `notices` record the entries handed to the ring and the callbacks run. */
  class SpliceFileJob {
    var state: State
    var offset: int
    var remaining: int
    var totalTransferred: int
    var bytesInPipe: int
    var pending: int
    var errorPending: bool
    var retryPending: bool
    var deferredError: int
    var eofReached: bool
    var writeEndOpen: bool
    var submitted: seq<Leg>
    var notices: seq<Notice>

    function View(): Job
      reads this
    {
      Job(state, offset, remaining, totalTransferred, bytesInPipe, pending, errorPending,
          retryPending, deferredError, eofReached, writeEndOpen)
    }

    /** The object moved from the fields `was` as turn `t` says. */
    ghost predicate Took(t: Turn, wasSubmitted: seq<Leg>, wasNotices: seq<Notice>, freed: bool)
      reads this
    {
      && View() == t.job
      && submitted == wasSubmitted + t.submitted
      && notices == wasNotices + (if t.notice.Some? then [t.notice.value] else [])
      && freed == t.free
    }

    constructor (offset: nat, length: nat)
      ensures View() == NewJob(offset, length) && submitted == [] && notices == []
    {
      state := CreatingPipe;
      this.offset, remaining := offset, length;
      totalTransferred, bytesInPipe, pending := 0, 0, 0;
      errorPending, retryPending, deferredError, eofReached := false, false, 0, false;
      writeEndOpen := false;
      submitted, notices := [], [];
    }

    method OnError(code: int)
      modifies this`notices
      ensures notices == old(notices) + [Error(code)]
    {
      notices := notices + [Error(code)];
    }

    method StartLinkedSplice(g: Grants) returns (inFlight: bool)
      modifies this
      ensures Took(LinkedPair(old(View()), g), old(submitted), old(notices), !inFlight)
    {
      var chunk := Min(SPLICE_CHUNK_SIZE, remaining);
      if chunk == 0 {
        notices := notices + [Complete(totalTransferred)];
        return false;
      }
      if !g.first {
        OnError(-ENOMEM);
        return false;
      }
      submitted := submitted + [FileLeg(offset, chunk)];
      if !g.second {
        errorPending := true;
        pending := 1;
        return true;
      }
      submitted := submitted + [SocketLeg(chunk)];
      state := SplicingFileToPipe;
      pending := 2;
      return true;
    }

    method DrainPipeToSocket(g: Grants) returns (inFlight: bool)
      modifies this
      ensures Took(Drained(old(View()), g), old(submitted), old(notices), !inFlight)
    {
      if !g.first {
        OnError(-ENOMEM);
        return false;
      }
      submitted := submitted + [SocketLeg(bytesInPipe)];
      state := SplicingPipeToSocket;
      pending := 1;
      return true;
    }

    method Resubmit(g: Grants) returns (inFlight: bool)
      modifies this
      ensures Took(Resubmitted(old(View()), g), old(submitted), old(notices), !inFlight)
    {
      if !g.first {
        OnError(-ENOMEM);
        return false;
      }
      if state == SplicingFileToPipe {
        submitted := submitted + [FileLeg(offset, Min(SPLICE_CHUNK_SIZE, remaining))];
      } else if state == SplicingPipeToSocket {
        submitted := submitted + [SocketLeg(bytesInPipe)];
      }
      return true;
    }

    method Start(pipeOk: bool, g: Grants) returns (freed: bool)
      modifies this
      ensures Took(OnStart(old(View()), pipeOk, g), old(submitted), old(notices), freed)
    {
      if !pipeOk {
        OnError(ENOMEM);
        return true;
      }
      writeEndOpen := true;
      var inFlight := StartLinkedSplice(g);
      return !inFlight;
    }

    method HandleFailure(res: int, g: Grants) returns (cleanup: bool)
      requires res < 0
      modifies this
      ensures Took(OnNegative(old(View()), res, g), old(submitted), old(notices), cleanup)
    {
      var inFlight;
      if -res == ECANCELED {
        if pending > 0 {
          return false;
        }
        if retryPending {
          retryPending := false;
          inFlight := StartLinkedSplice(g);
          return !inFlight;
        }
        var err := if deferredError != 0 then deferredError else ECANCELED;
        deferredError := 0;
        OnError(err);
        return true;
      }
      if -res == EAGAIN {
        if pending > 0 {
          retryPending := true;
          return false;
        }
        if errorPending {
          OnError(ENOMEM);
          return true;
        }
        pending := pending + 1;
        inFlight := Resubmit(g);
        return !inFlight;
      }
      if pending > 0 {
        deferredError := -res;
        return false;
      }
      OnError(-res);
      return true;
    }

    method HandleFileBytes(res: int)
      requires res >= 0
      modifies this
      ensures Took(OnFileBytes(old(View()), res), old(submitted), old(notices), false)
    {
      if res == 0 {
        eofReached := true;
        deferredError := EIO;
        writeEndOpen := false;
        state := SplicingPipeToSocket;
        return;
      }
      offset := offset + res;
      bytesInPipe := bytesInPipe + res;
      if remaining > 0 {
        remaining := remaining - Min(remaining, res);
      }
      state := SplicingPipeToSocket;
    }

    method HandleSocketBytes(res: int, g: Grants) returns (cleanup: bool)
      requires res >= 0
      modifies this
      ensures Took(OnSocketBytes(old(View()), res, g), old(submitted), old(notices), cleanup)
    {
      var inFlight;
      totalTransferred := totalTransferred + res;
      bytesInPipe := bytesInPipe - res;
      if bytesInPipe > 0 {
        inFlight := DrainPipeToSocket(g);
        return !inFlight;
      }
      if eofReached && remaining > 0 {
        var err := if deferredError != 0 then deferredError else EIO;
        deferredError := 0;
        OnError(err);
        return true;
      }
      if remaining > 0 {
        inFlight := StartLinkedSplice(g);
        return !inFlight;
      }
      notices := notices + [Complete(totalTransferred)];
      return true;
    }

    /** One completion: the object moves exactly as OnCompletion says. */
    method HandleCompletion(res: int, g: Grants) returns (cleanup: bool)
      modifies this
      ensures Took(OnCompletion(old(View()), res, g), old(submitted), old(notices), cleanup)
    {
      if pending <= 0 {
        return false;
      }
      pending := pending - 1;
      if res < 0 {
        cleanup := HandleFailure(res, g);
        return;
      }
      if errorPending && pending == 0 {
        OnError(ENOMEM);
        return true;
      }
      if state == SplicingFileToPipe {
        HandleFileBytes(res);
        return false;
      } else if state == SplicingPipeToSocket {
        cleanup := HandleSocketBytes(res, g);
        return;
      }
      return false;
    }
  }

  /** Drives one job object with any completions the kernel may deliver, until they end or the job
      is released. On its own fields: every byte of the range is sent, in the pipe or remaining
      while it lives; it runs at most one callback, exactly when it is released; and success
      means that everything was sent. `w` is what the kernel holds and has done. */
  method Transfer(file: string, start: nat, length: nat, pipeOk: bool, g: Grants, run: seq<Completion>)
    returns (job: SpliceFileJob, freed: bool, ghost w: World)
    requires ValidRange(file, start, length) && Legal(Started(start, length, pipeOk, g), file, run)
    ensures w == After(Started(start, length, pipeOk, g), file, run)
    ensures fresh(job) && job.View() == w.job && job.notices == w.notices && freed == w.freed
    ensures !freed ==>
              && job.notices == [] && job.pending == |w.legs| > 0
              && 0 <= job.totalTransferred && 0 <= job.bytesInPipe && 0 <= job.remaining
              && job.totalTransferred + job.bytesInPipe + job.remaining == length
              && job.offset == start + job.totalTransferred + job.bytesInPipe
              && w.sent == file[start..start + job.totalTransferred]
    ensures freed ==>
              && |job.notices| == 1 && w.legs == []
              && (job.notices[0].Complete? ==> job.notices[0].bytes == length && w.sent == file[start..start + length])
  {
    hide Legal, Started, KernelAllows, OnCompletion, OnStart, Inv;
    job := new SpliceFileJob(start, length);
    freed := job.Start(pipeOk, g);
    w := Started(start, length, pipeOk, g);
    StartedFields(start, length, pipeOk, g);
    StartedInv(file, start, length, pipeOk, g);
    ghost var w0 := w;
    assert run[0..] == run;
    for i := 0 to |run|
      invariant fresh(job) && job.View() == w.job && job.notices == w.notices && freed == w.freed
      invariant Inv(w, file, start, length)
      invariant Legal(w, file, run[i..]) && After(w, file, run[i..]) == After(w0, file, run)
    {
      LegalFirst(w, file, run[i..]);
      assert run[i..][1..] == run[i + 1..];
      StepInv(w, file, start, length, run[i].res, run[i].grants);
      freed := job.HandleCompletion(run[i].res, run[i].grants);
      w := Step(w, file, run[i].res, run[i].grants);
    }
    EndFields(w, file, start, length);
  }

  lemma StartedFields(start: nat, length: nat, pipeOk: bool, g: Grants)
    ensures var w, t := Started(start, length, pipeOk, g), OnStart(NewJob(start, length), pipeOk, g);
            w.job == t.job && w.notices == (if t.notice.Some? then [t.notice.value] else []) && w.freed == t.free
  {
  }

  lemma LegalFirst(w: World, file: string, run: seq<Completion>)
    requires Legal(w, file, run) && run != []
    ensures !w.freed && KernelAllows(w, file, run[0].res)
    ensures Legal(Step(w, file, run[0].res, run[0].grants), file, run[1..])
    ensures After(w, file, run) == After(Step(w, file, run[0].res, run[0].grants), file, run[1..])
  {
    hide Step;
  }

  lemma EndFields(w: World, file: string, start: nat, length: nat)
    requires ValidRange(file, start, length) && Inv(w, file, start, length)
    ensures !w.freed ==>
              && w.notices == [] && w.job.pending == |w.legs| > 0 && Conserved(w, file, start, length)
    ensures w.freed ==> Finished(w, file, start, length)
  {
  }
}
