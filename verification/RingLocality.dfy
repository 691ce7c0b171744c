/**
 Locality: a change confined to one connection and a few jobs keeps the invariant of
 everything else, so a handler has to re-establish it only for what it touched.
 */
module RingLocality {
  import opened Wrappers
  import opened RingState
  import SpliceFile

  /** The pool slot a job belongs to, if it belongs to one. */
  function Home(j: Job): Option<Slot> {
    match j
    case Cancel(_) => None
    case Busy(_) => None
    case _ => Some(j.owner.slot)
  }

  /** A descriptor held by connection `c` or by one of the jobs `x`. */
  predicate Touched(h: Holder, c: Slot, x: set<JobId>) {
    match h
    case Socket(o) => o.slot == c
    case OpenFile(j) => j in x
  }

  ghost predicate SameSlot(s: State, s': State, d: Slot) {
    && (d in s.conns <==> d in s'.conns) && (d in s.conns ==> s.conns[d] == s'.conns[d])
    && Gen(s, d) == Gen(s', d)
    && (d in s.duty <==> d in s'.duty) && (d in s.duty ==> s.duty[d] == s'.duty[d])
  }

  ghost predicate SameJob(s: State, s': State, j: JobId) {
    && (j in s.jobs <==> j in s'.jobs) && (j in s.jobs ==> s.jobs[j] == s'.jobs[j])
    && s.ops[j] == s'.ops[j]
  }

  /** `s` and `s'` differ at most in connection `c`, the jobs `x` and their descriptors. */
  ghost predicate Local(s: State, s': State, c: Slot, x: set<JobId>) {
    && (forall d :: d != c ==> SameSlot(s, s', d))
    && (forall j :: j !in x ==> SameJob(s, s', j))
    && (forall j :: j in x && j in s.jobs ==> Home(Core(s.jobs[j])) in {None, Some(c)})
    && (forall fd :: fd in s.fds && !Touched(s.fds[fd], c, x) ==> fd in s'.fds && s'.fds[fd] == s.fds[fd])
    && (forall fd :: fd in s'.fds && !Touched(s'.fds[fd], c, x) ==> fd in s.fds && s'.fds[fd] == s.fds[fd])
  }

  /** What the change has to re-establish. */
  ghost predicate JobsHere(s: State, s': State, c: Slot, x: set<JobId>) {
    && (forall j :: j in x && j in s'.jobs ==> JobOk(s', j))
    && (forall j :: j in x && j in s'.ops ==> j in s'.jobs)
    && (SameSlot(s, s', c) ||
        forall j :: j in s'.jobs && j !in x && Home(s'.jobs[j]) == Some(c) ==> JobOk(s', j))
  }

  ghost predicate ConnHere(s': State, c: Slot) {
    && (c in s'.conns ==> ConnOk(s', c))
    && (c in s'.duty ==> DutyOk(s', c))
  }

  ghost predicate FdsHere(s': State, c: Slot, x: set<JobId>) {
    && (forall fd :: fd in s'.fds && Touched(s'.fds[fd], c, x) ==> FdOk(s', fd))
    && (forall j :: j in x && j in s'.jobs ==> SourceOk(s', j))
  }

  lemma JobElsewhere(s: State, s': State, c: Slot, x: set<JobId>, j: JobId)
    requires Local(s, s', c, x) && j in s.jobs && j in s'.jobs && JobOk(s, j) && j !in x
    requires SameSlot(s, s', c) || Home(s.jobs[j]) != Some(c)
    ensures JobOk(s', j)
  {
    hide SpliceFile.Inv;
    assert SameJob(s, s', j);
    if Home(s.jobs[j]).Some? {
      assert SameSlot(s, s', Home(s.jobs[j]).value);
    }
  }

  lemma JobsElsewhere(s: State, s': State, c: Slot, x: set<JobId>)
    requires Local(s, s', c, x) && JobsOk(s) && JobsHere(s, s', c, x)
    ensures JobsOk(s')
  {
    hide JobOk;
    forall j | j in s'.jobs ensures JobOk(s', j) {
      if j !in x {
        assert SameJob(s, s', j);
        if SameSlot(s, s', c) || Home(s.jobs[j]) != Some(c) {
          JobElsewhere(s, s', c, x, j);
        }
      }
    }
    forall j | j in s'.ops ensures j in s'.jobs {
      if j !in x {
        assert SameJob(s, s', j);
      }
    }
  }

  lemma ConnElsewhere(s: State, s': State, c: Slot, x: set<JobId>, d: Slot)
    requires Local(s, s', c, x) && d != c && d in s.conns && ConnOk(s, d)
    ensures d in s'.conns && ConnOk(s', d)
  {
    assert SameSlot(s, s', d);
    var k := s.conns[d];
    assert k.read.Some? ==> SameJob(s, s', k.read.value);
    assert k.idle.Some? ==> SameJob(s, s', k.idle.value);
  }

  lemma DutyElsewhere(s: State, s': State, c: Slot, x: set<JobId>, d: Slot)
    requires Local(s, s', c, x) && d != c && d in s.duty && DutyOk(s, d)
    ensures d in s'.duty && DutyOk(s', d)
  {
    hide SpliceFile.Inv;
    assert SameSlot(s, s', d);
    var y := s.duty[d];
    assert SameJob(s, s', y.runner);
    assert y.file.Some? ==> SameJob(s, s', y.file.value);
  }

  lemma ConnsElsewhere(s: State, s': State, c: Slot, x: set<JobId>)
    requires Local(s, s', c, x) && ConnsOk(s) && ConnHere(s', c)
    ensures ConnsOk(s')
  {
    hide ConnOk, DutyOk;
    forall d | d in s'.conns ensures ConnOk(s', d) {
      if d != c {
        assert SameSlot(s, s', d);
        ConnElsewhere(s, s', c, x, d);
      }
    }
    forall d | d in s'.duty ensures DutyOk(s', d) {
      if d != c {
        assert SameSlot(s, s', d);
        DutyElsewhere(s, s', c, x, d);
      }
    }
  }

  lemma FdsElsewhere(s: State, s': State, c: Slot, x: set<JobId>)
    requires Local(s, s', c, x) && FdsOk(s) && FdsHere(s', c, x)
    ensures FdsOk(s')
  {
    forall fd | fd in s'.fds ensures FdOk(s', fd) {
      if !Touched(s'.fds[fd], c, x) {
        assert FdOk(s, fd);
        match s'.fds[fd]
        case Socket(o) => assert SameSlot(s, s', o.slot);
        case OpenFile(j) => assert SameJob(s, s', j);
      }
    }
    forall j | j in s'.jobs ensures SourceOk(s', j) {
      if j !in x {
        assert SameJob(s, s', j) && SourceOk(s, j);
      }
    }
  }

  /** A local change that is right where it happened is right everywhere. */
  lemma Locality(s: State, s': State, c: Slot, x: set<JobId>)
    requires Inv(s, {c}) && Local(s, s', c, x)
    requires JobsHere(s, s', c, x) && ConnHere(s', c) && FdsHere(s', c, x)
    ensures Inv(s', {c})
    ensures (c in s'.conns ==> Settled(s', c)) ==> Inv(s', {})
  {
    hide JobsOk, ConnsOk, FdsOk, JobsHere, ConnHere, FdsHere;
    JobsElsewhere(s, s', c, x);
    ConnsElsewhere(s, s', c, x);
    FdsElsewhere(s, s', c, x);
    forall d | d in s'.conns && d != c ensures Settled(s', d) {
      assert SameSlot(s, s', d);
      assert Settled(s, d);
    }
  }
}
