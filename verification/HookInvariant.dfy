/** Every step of every process, every crash and every outside removal of `end` keeps the invariant. */
module HookInvariant {
  import opened Options
  import opened HookKey
  import opened HookCache

  /** The disk as one process may leave it: only its own entry, its own sink and new inodes of its own. */
  ghost predicate Touches(cfg: Config, w: World, w': World, pid: nat)
    requires pid in w.procs
  {
    var slot := SlotOf(cfg, w, pid);
    && pid in w'.procs
    && w'.procs == w.procs[pid := w'.procs[pid]]
    && w'.procs[pid].inv == w.procs[pid].inv
    && (forall s :: s != slot ==> EntryAt(w', s) == EntryAt(w, s))
    && (forall i :: i in w.inodes ==> i in w'.inodes && w'.inodes[i].creator == w.inodes[i].creator)
    && (forall i :: i in w.inodes && w'.inodes[i] != w.inodes[i] ==> Held(w.procs[pid].pc).Some? && Writes(cfg, w, pid, i))
    && (forall i :: i in w'.inodes && i !in w.inodes ==> w'.inodes[i].creator == pid)
    && (Held(w'.procs[pid].pc).Some? && Held(w'.procs[pid].pc) != Held(w.procs[pid].pc)
        ==> Held(w'.procs[pid].pc).value !in w.inodes)
  }

  /** A process that holds the lock of an unsealed entry is alone in it. */
  ghost predicate Respects(cfg: Config, w: World, w': World, pid: nat)
    requires pid in w.procs
  {
    var slot := SlotOf(cfg, w, pid);
    && (Sealed(cfg, w, slot) ==> Sealed(cfg, w', slot) && FilesAt(w', slot)[Stdout] == FilesAt(w, slot)[Stdout])
    && (forall q, lock :: q in w.procs && q != pid && SlotOf(cfg, w, q) == slot
                         && Held(w.procs[q].pc) == Some(lock) && HoldsLock(cfg, w, q, lock)
          ==> EntryAt(w', slot) == EntryAt(w, slot))
  }

  lemma SealedElsewhere(cfg: Config, w: World, w': World, pid: nat, s: string)
    requires pid in w.procs && Touches(cfg, w, w', pid)
    requires s != SlotOf(cfg, w, pid) && Sealed(cfg, w, s)
    ensures Sealed(cfg, w', s) && FilesAt(w', s) == FilesAt(w, s)
    ensures InodeOf(cfg, w', s, Stdout) == InodeOf(cfg, w, s, Stdout)
  {
    assert FilesAt(w', s) == FilesAt(w, s);
    var i := FilesAt(w, s)[Stdout];
    assert w'.inodes[i] == w.inodes[i];
  }

  /** An explanation stays valid while processes keep their command lines. */
  lemma ExplainedStays(cfg: Config, w: World, w': World, pid: nat)
    requires pid in w.procs && Explained(cfg, w, pid)
    requires forall q :: q in w.procs ==> q in w'.procs && w'.procs[q].inv == w.procs[q].inv
    requires w'.procs[pid].out == w.procs[pid].out
    ensures Explained(cfg, w', pid)
  {
    var q :| ExplainedBy(cfg, w, pid, q);
    assert ExplainedBy(cfg, w', pid, q);
  }

  /** Who has not given up a lock holds it. */
  lemma HolderHolds(cfg: Config, w: World, pid: nat)
    requires pid in w.procs && ProcOk(cfg, w, pid) && Held(w.procs[pid].pc).Some?
    ensures HoldsLock(cfg, w, pid, Held(w.procs[pid].pc).value)
  {
  }

  /** A lock holder sees its entry and its sink unchanged. */
  lemma HolderUndisturbed(cfg: Config, w: World, w': World, pid: nat, q: nat)
    requires pid in w.procs && q in w.procs && q != pid
    requires Touches(cfg, w, w', pid) && Respects(cfg, w, w', pid) && ProcOk(cfg, w, q)
    requires ProcOk(cfg, w, pid) && Held(w.procs[q].pc).Some?
    ensures q in w'.procs && ProcOk(cfg, w', q)
  {
    var s := SlotOf(cfg, w, q);
    assert w'.procs[q] == w.procs[q];
    HolderHolds(cfg, w, q);
    assert EntryAt(w', s) == EntryAt(w, s);
    assert HoldsLock(cfg, w', q, Held(w.procs[q].pc).value);
  }

  lemma OtherProcess(cfg: Config, w: World, w': World, pid: nat, q: nat)
    requires pid in w.procs && q in w.procs && q != pid
    requires Touches(cfg, w, w', pid) && Respects(cfg, w, w', pid) && ProcOk(cfg, w, q)
    requires ProcOk(cfg, w, pid)
    ensures q in w'.procs && ProcOk(cfg, w', q)
  {
    var s := SlotOf(cfg, w, q);
    assert w'.procs[q] == w.procs[q];
    if Held(w.procs[q].pc).Some? {
      HolderUndisturbed(cfg, w, w', pid, q);
    } else {
      if Sealed(cfg, w, s) && s != SlotOf(cfg, w, pid) {
        SealedElsewhere(cfg, w, w', pid, s);
      }
      if Explained(cfg, w, q) {
        ExplainedStays(cfg, w, w', q);
      }
    }
  }

  lemma OtherEntry(cfg: Config, w: World, w': World, pid: nat, s: string)
    requires pid in w.procs && Touches(cfg, w, w', pid)
    requires s != SlotOf(cfg, w, pid) && EntryOk(cfg, w, s)
    ensures EntryOk(cfg, w', s)
  {
    assert FilesAt(w', s) == FilesAt(w, s);
    forall f | f in FilesAt(w', s) ensures Bound(cfg, w', s, f) {
      assert Bound(cfg, w, s, f);
    }
    if Sealed(cfg, w, s) {
      SealedElsewhere(cfg, w, w', pid, s);
    }
  }

  /** What one step owes: it touches only its own things, respects the others, and leaves itself and its entry in order. */
  ghost predicate Good(cfg: Config, w: World, w': World, pid: nat)
    requires pid in w.procs
  {
    && Touches(cfg, w, w', pid)
    && Respects(cfg, w, w', pid)
    && ProcOk(cfg, w', pid)
    && EntryOk(cfg, w', SlotOf(cfg, w, pid))
  }

  lemma GoodKeepsInv(cfg: Config, w: World, w': World, pid: nat)
    requires Inv(cfg, w) && pid in w.procs && Good(cfg, w, w', pid)
    ensures Inv(cfg, w')
  {
    forall q | q in w'.procs ensures ProcOk(cfg, w', q) {
      if q != pid {
        OtherProcess(cfg, w, w', pid, q);
      }
    }
    forall s ensures EntryOk(cfg, w', s) {
      if s != SlotOf(cfg, w, pid) {
        OtherEntry(cfg, w, w', pid, s);
      }
    }
  }

  ghost predicate Ready(cfg: Config, w: World, pid: nat) {
    pid in w.procs && ProcOk(cfg, w, pid) && EntryOk(cfg, w, SlotOf(cfg, w, pid))
  }

  /** A step that leaves the disk alone and takes no lock. */
  lemma QuietStep(cfg: Config, w: World, w': World, pid: nat)
    requires Ready(cfg, w, pid) && pid in w'.procs
    requires w'.procs == w.procs[pid := w'.procs[pid]] && w'.procs[pid].inv == w.procs[pid].inv
    requires w'.inodes == w.inodes && forall s :: EntryAt(w', s) == EntryAt(w, s)
    requires Held(w'.procs[pid].pc).None? || Held(w'.procs[pid].pc) == Held(w.procs[pid].pc)
    ensures Touches(cfg, w, w', pid) && Respects(cfg, w, w', pid) && EntryOk(cfg, w', SlotOf(cfg, w, pid))
  {
    var s := SlotOf(cfg, w, pid);
    forall f | f in FilesAt(w', s) ensures Bound(cfg, w', s, f) {
      assert Bound(cfg, w, s, f);
    }
  }

  function ViewOf(cfg: Config, w: World, pid: nat): View
    requires pid in w.procs
  {
    View(EntryAt(w, SlotOf(cfg, w, pid)), w.inodes, w.procs[pid])
  }

  /** The world after one process has moved as `v'` says. */
  predicate Takes(cfg: Config, w: World, w': World, pid: nat, v': Option<View>)
    requires pid in w.procs
  {
    v'.Some? && w' == Put(w, SlotOf(cfg, w, pid), pid, v'.value)
  }

  function Moved(cfg: Config, w: World, pid: nat, pc: Pc): World
    requires pid in w.procs
  {
    Put(w, SlotOf(cfg, w, pid), pid, ViewOf(cfg, w, pid).(proc := w.procs[pid].(pc := pc)))
  }

  /** A move that changes nothing but the process itself, and takes no lock. */
  lemma MoveQuiet(cfg: Config, w: World, w': World, pid: nat, pc: Pc)
    requires Ready(cfg, w, pid) && w' == Moved(cfg, w, pid, pc)
    requires Held(pc).None? || Held(pc) == Held(w.procs[pid].pc)
    ensures Touches(cfg, w, w', pid) && Respects(cfg, w, w', pid) && EntryOk(cfg, w', SlotOf(cfg, w, pid))
    ensures w'.inodes == w.inodes && w'.procs == w.procs[pid := w.procs[pid].(pc := pc)]
    ensures forall s :: EntryAt(w', s) == EntryAt(w, s)
  {
    QuietStep(cfg, w, w', pid);
  }

  /** Lock and sink do not depend on where the process stands. */
  lemma HoldMoves(cfg: Config, w: World, w': World, pid: nat)
    requires pid in w.procs && pid in w'.procs && w'.procs[pid].inv == w.procs[pid].inv
    requires w'.inodes == w.inodes && EntryAt(w', SlotOf(cfg, w, pid)) == EntryAt(w, SlotOf(cfg, w, pid))
    ensures forall lock :: HoldsLock(cfg, w, pid, lock) ==> HoldsLock(cfg, w', pid, lock)
    ensures forall ino :: Writes(cfg, w, pid, ino) ==> Writes(cfg, w', pid, ino)
  {
  }

  lemma LookupSteps(cfg: Config, w: World, w': World, pid: nat, a: Action)
    requires Ready(cfg, w, pid) && Benign(Do(pid, a))
    requires var pc := w.procs[pid].pc; pc.StatEnd? || pc.OpenStdout? || pc.StatStart?
    requires Takes(cfg, w, w', pid, LookupStep(cfg, ViewOf(cfg, w, pid), a))
    ensures Good(cfg, w, w', pid)
  {
    QuietStep(cfg, w, w', pid);
  }

  lemma ReadOn(cfg: Config, w: World, w': World, pid: nat, n: nat)
    requires Ready(cfg, w, pid) && w.procs[pid].pc.Reading?
    requires Takes(cfg, w, w', pid, ReadStep(ViewOf(cfg, w, pid), Copy(n)))
    requires Sealed(cfg, w', SlotOf(cfg, w, pid))
    ensures ProcOk(cfg, w', pid)
  {
    var bytes := InodeOf(cfg, w, SlotOf(cfg, w, pid), Stdout).bytes;
    var o := w.procs[pid].pc.offset;
    assert bytes[..o] + bytes[o..o + n] == bytes[..o + n];
  }

  lemma ReadToEnd(cfg: Config, w: World, w': World, pid: nat)
    requires Ready(cfg, w, pid) && w.procs[pid].pc.Reading?
    requires Takes(cfg, w, w', pid, ReadStep(ViewOf(cfg, w, pid), EndOfFile))
    ensures ProcOk(cfg, w', pid)
  {
    var file := InodeOf(cfg, w, SlotOf(cfg, w, pid), Stdout);
    assert w.procs[pid].out == file.bytes;
    assert ExplainedBy(cfg, w', pid, file.creator);
  }

  lemma ReadSteps(cfg: Config, w: World, w': World, pid: nat, a: Action)
    requires Ready(cfg, w, pid)
    requires w.procs[pid].pc.Reading?
    requires Takes(cfg, w, w', pid, ReadStep(ViewOf(cfg, w, pid), a))
    ensures Good(cfg, w, w', pid)
  {
    QuietStep(cfg, w, w', pid);
    match a {
      case EndOfFile => ReadToEnd(cfg, w, w', pid);
      case Copy(n) => ReadOn(cfg, w, w', pid, n);
      case _ =>
    }
  }

  lemma CreateBinds(cfg: Config, w: World, w': World, pid: nat, f: File, ino: nat, pc: Pc)
    requires Ready(cfg, w, pid) && CanCreate(ViewOf(cfg, w, pid), f, ino, true)
    requires w' == Put(w, SlotOf(cfg, w, pid), pid, Create(ViewOf(cfg, w, pid), f, ino, pid, pc))
    ensures forall g :: g in FilesAt(w', SlotOf(cfg, w, pid)) ==> Bound(cfg, w', SlotOf(cfg, w, pid), g)
  {
    var s := SlotOf(cfg, w, pid);
    forall g | g in FilesAt(w', s) ensures Bound(cfg, w', s, g) {
      if g != f {
        assert Bound(cfg, w, s, g);
      }
    }
  }

  /** Creating a file in one's own entry binds the new name and moves nothing else. */
  lemma CreateShape(cfg: Config, w: World, w': World, pid: nat, f: File, ino: nat, pc: Pc)
    requires Ready(cfg, w, pid) && CanCreate(ViewOf(cfg, w, pid), f, ino, true)
    requires w' == Put(w, SlotOf(cfg, w, pid), pid, Create(ViewOf(cfg, w, pid), f, ino, pid, pc))
    requires Held(pc).None? || Held(pc) == Held(w.procs[pid].pc) || Held(pc) == Some(ino)
    ensures Touches(cfg, w, w', pid)
    ensures var s := SlotOf(cfg, w, pid);
            && FilesAt(w', s) == FilesAt(w, s)[f := ino] && w'.inodes == w.inodes[ino := Inode("", pid)]
            && w'.procs == w.procs[pid := w.procs[pid].(pc := pc)]
            && forall g :: g in FilesAt(w', s) ==> Bound(cfg, w', s, g)
  {
    CreateBinds(cfg, w, w', pid, f, ino, pc);
  }

  /** Whoever holds the lock of an entry sees it unchanged by a process that does not hold it. */
  lemma AloneRespects(cfg: Config, w: World, w': World, pid: nat, lock: nat)
    requires Ready(cfg, w, pid) && HoldsLock(cfg, w, pid, lock) && Held(w.procs[pid].pc) == Some(lock)
    ensures Respects(cfg, w, w', pid)
  {
  }

  /** The other names of an entry do not matter to its being sealed. */
  lemma SealedSurvives(cfg: Config, w: World, w': World, s: string)
    requires forall q :: q in w.procs ==> q in w'.procs && w'.procs[q].inv == w.procs[q].inv
                                          && (Held(w'.procs[q].pc).None? || Held(w'.procs[q].pc) == Held(w.procs[q].pc))
    requires forall i :: i in w.inodes ==> i in w'.inodes && w'.inodes[i] == w.inodes[i]
    requires forall g :: g == Start || g == Stdout ==>
                           (g in FilesAt(w, s) <==> g in FilesAt(w', s)) &&
                           (g in FilesAt(w, s) ==> FilesAt(w, s)[g] == FilesAt(w', s)[g])
    requires Sealed(cfg, w, s)
    ensures Sealed(cfg, w', s) && FilesAt(w', s)[Stdout] == FilesAt(w, s)[Stdout]
    ensures InodeOf(cfg, w', s, Stdout) == InodeOf(cfg, w, s, Stdout)
  {
    assert Bound(cfg, w', s, Start) && Bound(cfg, w', s, Stdout);
  }

  lemma LogExits(cfg: Config, w: World, w': World, pid: nat)
    requires Ready(cfg, w, pid) && w.procs[pid].pc.AppendServed?
    requires w'.procs == w.procs[pid := w.procs[pid].(pc := Exited(w.procs[pid].pc.code))]
    ensures ProcOk(cfg, w', pid)
  {
    if w.procs[pid].pc.code == 0 {
      ExplainedStays(cfg, w, w', pid);
    }
  }

  /** Nobody holds the lock of a sealed entry. */
  lemma SealedRespects(cfg: Config, w: World, w': World, pid: nat)
    requires pid in w.procs && Sealed(cfg, w, SlotOf(cfg, w, pid)) && Sealed(cfg, w', SlotOf(cfg, w, pid))
    requires FilesAt(w', SlotOf(cfg, w, pid))[Stdout] == FilesAt(w, SlotOf(cfg, w, pid))[Stdout]
    ensures Respects(cfg, w, w', pid)
  {
  }

  /** A sealed entry that gains a name stays sealed. */
  lemma SealedGains(cfg: Config, w: World, w': World, pid: nat, f: File, ino: nat, pc: Pc)
    requires pid in w.procs && Sealed(cfg, w, SlotOf(cfg, w, pid)) && f != Start && f != Stdout
    requires ino !in w.inodes && w'.inodes == w.inodes[ino := Inode("", pid)]
    requires FilesAt(w', SlotOf(cfg, w, pid)) == FilesAt(w, SlotOf(cfg, w, pid))[f := ino]
    requires w'.procs == w.procs[pid := w.procs[pid].(pc := pc)] && Held(pc).None?
    ensures Sealed(cfg, w', SlotOf(cfg, w, pid))
    ensures FilesAt(w', SlotOf(cfg, w, pid))[Stdout] == FilesAt(w, SlotOf(cfg, w, pid))[Stdout]
  {
    SealedSurvives(cfg, w, w', SlotOf(cfg, w, pid));
  }

  lemma LogCreates(cfg: Config, w: World, w': World, pid: nat, ino: nat)
    requires Ready(cfg, w, pid) && w.procs[pid].pc.AppendServed?
    requires CanCreate(ViewOf(cfg, w, pid), Served, ino, true)
    requires var pc := Exited(w.procs[pid].pc.code);
             w' == Put(w, SlotOf(cfg, w, pid), pid, Create(ViewOf(cfg, w, pid), Served, ino, pid, pc))
    ensures Touches(cfg, w, w', pid) && Respects(cfg, w, w', pid) && EntryOk(cfg, w', SlotOf(cfg, w, pid))
  {
    CreateShape(cfg, w, w', pid, Served, ino, Exited(w.procs[pid].pc.code));
    SealedGains(cfg, w, w', pid, Served, ino, Exited(w.procs[pid].pc.code));
    SealedRespects(cfg, w, w', pid);
  }

  lemma LogStep(cfg: Config, w: World, w': World, pid: nat, a: Action)
    requires Ready(cfg, w, pid)
    requires w.procs[pid].pc.AppendServed?
    requires Takes(cfg, w, w', pid, MarkStep(pid, ViewOf(cfg, w, pid), a))
    ensures Good(cfg, w, w', pid)
  {
    if CanCreate(ViewOf(cfg, w, pid), Served, a.ino, a.ok) {
      LogCreates(cfg, w, w', pid, a.ino);
    } else {
      QuietStep(cfg, w, w', pid);
    }
    LogExits(cfg, w, w', pid);
  }

  /** Without `start` there is nobody to respect. */
  lemma FreeRespects(cfg: Config, w: World, w': World, pid: nat)
    requires pid in w.procs && Start !in FilesAt(w, SlotOf(cfg, w, pid))
    ensures Respects(cfg, w, w', pid)
  {
  }

  lemma MkdirStep(cfg: Config, w: World, w': World, pid: nat, a: Action)
    requires Ready(cfg, w, pid)
    requires w.procs[pid].pc.MakeDir?
    requires Takes(cfg, w, w', pid, CreateStep(pid, ViewOf(cfg, w, pid), a))
    ensures Good(cfg, w, w', pid)
    ensures forall s :: FilesAt(w', s) == FilesAt(w, s)
  {
    var s := SlotOf(cfg, w, pid);
    assert FilesAt(w', s) == FilesAt(w, s);
    if EntryAt(w', s) == EntryAt(w, s) {
      QuietStep(cfg, w, w', pid);
    } else {
      FreeRespects(cfg, w, w', pid);
    }
  }

  lemma WithoutStartEmpty(cfg: Config, w: World, s: string)
    requires EntryOk(cfg, w, s) && Start !in FilesAt(w, s)
    ensures FilesAt(w, s) == map[]
  {
    forall f ensures f !in FilesAt(w, s) {
      match f {
        case Start =>
        case Stdout =>
        case End =>
        case Served =>
      }
    }
  }

  /** Only an entry without `start` can be locked, and such an entry has no other name. */
  lemma LockCreated(cfg: Config, w: World, w': World, pid: nat, ino: nat)
    requires Ready(cfg, w, pid) && w.procs[pid].pc.CreateStart? && CanCreate(ViewOf(cfg, w, pid), Start, ino, true)
    requires w' == Put(w, SlotOf(cfg, w, pid), pid, Create(ViewOf(cfg, w, pid), Start, ino, pid, CreateStdout(ino)))
    ensures Good(cfg, w, w', pid)
  {
    WithoutStartEmpty(cfg, w, SlotOf(cfg, w, pid));
    CreateShape(cfg, w, w', pid, Start, ino, CreateStdout(ino));
    FreeRespects(cfg, w, w', pid);
    assert HoldsLock(cfg, w', pid, ino);
  }

  lemma LockRefused(cfg: Config, w: World, w': World, pid: nat)
    requires Ready(cfg, w, pid) && w.procs[pid].pc.CreateStart? && w' == Moved(cfg, w, pid, Running(NoCache))
    ensures Good(cfg, w, w', pid)
  {
    MoveQuiet(cfg, w, w', pid, Running(NoCache));
  }

  lemma LockStep(cfg: Config, w: World, w': World, pid: nat, a: Action)
    requires Ready(cfg, w, pid)
    requires w.procs[pid].pc.CreateStart?
    requires Takes(cfg, w, w', pid, CreateStep(pid, ViewOf(cfg, w, pid), a))
    ensures Good(cfg, w, w', pid)
  {
    if CanCreate(ViewOf(cfg, w, pid), Start, a.ino, a.ok) {
      LockCreated(cfg, w, w', pid, a.ino);
    } else {
      LockRefused(cfg, w, w', pid);
    }
  }

  /** Gaining or losing `stdout` does not cost the lock. */
  lemma LockSurvives(cfg: Config, w: World, w': World, pid: nat, lock: nat)
    requires pid in w.procs && HoldsLock(cfg, w, pid, lock)
    requires pid in w'.procs && w'.procs[pid].inv == w.procs[pid].inv
    requires lock in w'.inodes && w'.inodes[lock] == w.inodes[lock]
    requires var files := FilesAt(w', SlotOf(cfg, w, pid));
             Start in files && files[Start] == lock && End !in files && Served !in files
    ensures HoldsLock(cfg, w', pid, lock)
  {
  }

  lemma SinkCreated(cfg: Config, w: World, w': World, pid: nat, ino: nat)
    requires Ready(cfg, w, pid) && w.procs[pid].pc.CreateStdout? && CanCreate(ViewOf(cfg, w, pid), Stdout, ino, true)
    requires var pc := Running(Cache(w.procs[pid].pc.lock, ino, false));
             w' == Put(w, SlotOf(cfg, w, pid), pid, Create(ViewOf(cfg, w, pid), Stdout, ino, pid, pc))
    ensures Good(cfg, w, w', pid)
  {
    var lock := w.procs[pid].pc.lock;
    AloneRespects(cfg, w, w', pid, lock);
    CreateShape(cfg, w, w', pid, Stdout, ino, Running(Cache(lock, ino, false)));
    LockSurvives(cfg, w, w', pid, lock);
    assert Writes(cfg, w', pid, ino);
  }

  /** A holder that cannot create `stdout` leaves the entry locked and goes on without cache. */
  lemma SinkRefused(cfg: Config, w: World, w': World, pid: nat)
    requires Ready(cfg, w, pid) && w.procs[pid].pc.CreateStdout? && w' == Moved(cfg, w, pid, Running(NoCache))
    ensures Good(cfg, w, w', pid) && EntryAt(w', SlotOf(cfg, w, pid)) == EntryAt(w, SlotOf(cfg, w, pid))
  {
    MoveQuiet(cfg, w, w', pid, Running(NoCache));
  }

  lemma SinkStep(cfg: Config, w: World, w': World, pid: nat, a: Action)
    requires Ready(cfg, w, pid)
    requires w.procs[pid].pc.CreateStdout?
    requires Takes(cfg, w, w', pid, CreateStep(pid, ViewOf(cfg, w, pid), a))
    ensures Good(cfg, w, w', pid)
  {
    if CanCreate(ViewOf(cfg, w, pid), Stdout, a.ino, a.ok) {
      SinkCreated(cfg, w, w', pid, a.ino);
    } else {
      SinkRefused(cfg, w, w', pid);
    }
  }

  /** An entry whose writer has exited after a complete output is sealed. */
  lemma WriterSeals(cfg: Config, w: World, pid: nat)
    requires pid in w.procs && w.procs[pid].pc == Exited(0) && Cacheable(cfg, w.procs[pid].inv)
    requires var s := SlotOf(cfg, w, pid);
             && Bound(cfg, w, s, Start) && InodeOf(cfg, w, s, Start).creator == pid
             && Bound(cfg, w, s, Stdout) && InodeOf(cfg, w, s, Stdout) == Inode(cfg.output(w.procs[pid].inv), pid)
    ensures Sealed(cfg, w, SlotOf(cfg, w, pid))
  {
  }

  /** Creating `end` seals the entry. */
  lemma EndCreated(cfg: Config, w: World, w': World, pid: nat, ino: nat)
    requires Ready(cfg, w, pid) && w.procs[pid].pc.Committing?
    requires CanCreate(ViewOf(cfg, w, pid), End, ino, true)
    requires w' == Put(w, SlotOf(cfg, w, pid), pid, Create(ViewOf(cfg, w, pid), End, ino, pid, Exited(0)))
    ensures Good(cfg, w, w', pid) && Sealed(cfg, w', SlotOf(cfg, w, pid))
  {
    CreateShape(cfg, w, w', pid, End, ino, Exited(0));
    AloneRespects(cfg, w, w', pid, w.procs[pid].pc.lock);
    WriterSeals(cfg, w', pid);
    assert ExplainedBy(cfg, w', pid, pid);
  }

  /** If `end` cannot be created, the complete entry stays unannounced. */
  lemma EndRefused(cfg: Config, w: World, w': World, pid: nat)
    requires Ready(cfg, w, pid) && w.procs[pid].pc.Committing? && w' == Moved(cfg, w, pid, Exited(0))
    ensures Good(cfg, w, w', pid)
  {
    MoveQuiet(cfg, w, w', pid, Exited(0));
    assert ExplainedBy(cfg, w', pid, pid);
  }

  lemma CommitStep(cfg: Config, w: World, w': World, pid: nat, a: Action)
    requires Ready(cfg, w, pid) && Benign(Do(pid, a))
    requires w.procs[pid].pc.Committing?
    requires Takes(cfg, w, w', pid, MarkStep(pid, ViewOf(cfg, w, pid), a))
    ensures Good(cfg, w, w', pid)
  {
    assert a.Commit?;
    if CanCreate(ViewOf(cfg, w, pid), End, a.ino, a.ok) {
      EndCreated(cfg, w, w', pid, a.ino);
    } else {
      EndRefused(cfg, w, w', pid);
    }
  }

  /** Writing to one's own sink changes only that inode. */
  lemma SinkWritten(cfg: Config, w: World, w': World, pid: nat, bytes: string)
    requires Ready(cfg, w, pid) && w.procs[pid].pc.Running? && w.procs[pid].pc.sink.Cache?
    requires pid in w'.procs && w'.procs == w.procs[pid := w'.procs[pid]] && w'.procs[pid].inv == w.procs[pid].inv
    requires Held(w'.procs[pid].pc) == Held(w.procs[pid].pc)
    requires w'.inodes == Append(w.inodes, w.procs[pid].pc.sink.ino, bytes) && forall s :: EntryAt(w', s) == EntryAt(w, s)
    ensures Touches(cfg, w, w', pid) && Respects(cfg, w, w', pid) && EntryOk(cfg, w', SlotOf(cfg, w, pid))
    ensures HoldsLock(cfg, w', pid, w.procs[pid].pc.sink.lock) && Writes(cfg, w', pid, w.procs[pid].pc.sink.ino)
  {
    var s := SlotOf(cfg, w, pid);
    var sink := w.procs[pid].pc.sink;
    assert FilesAt(w', s) == FilesAt(w, s);
    assert forall i :: i in w.inodes && i != sink.ino ==> w'.inodes[i] == w.inodes[i];
    assert Writes(cfg, w, pid, sink.ino);
    AloneRespects(cfg, w, w', pid, sink.lock);
    forall f | f in FilesAt(w', s) ensures Bound(cfg, w', s, f) {
      assert Bound(cfg, w, s, f);
    }
  }

  function Wrote(cfg: Config, w: World, pid: nat, stored: string, printed: string, broken: bool): World
    requires pid in w.procs && w.procs[pid].pc.Running? && w.procs[pid].pc.sink.Cache?
  {
    var v, p := ViewOf(cfg, w, pid), w.procs[pid];
    Put(w, SlotOf(cfg, w, pid), pid,
        v.(inodes := Append(w.inodes, p.pc.sink.ino, stored),
           proc := p.(out := p.out + printed, pc := Running(p.pc.sink.(broken := broken)))))
  }

  lemma WroteIsGood(cfg: Config, w: World, w': World, pid: nat, stored: string, printed: string, broken: bool)
    requires Ready(cfg, w, pid) && w.procs[pid].pc.Running? && w.procs[pid].pc.sink.Cache?
    requires !w.procs[pid].pc.sink.broken && (!broken ==> stored == printed)
    requires w' == Wrote(cfg, w, pid, stored, printed, broken)
    ensures Good(cfg, w, w', pid)
  {
    SinkWritten(cfg, w, w', pid, stored);
  }

  lemma EmitStep(cfg: Config, w: World, w': World, pid: nat, a: Action)
    requires Ready(cfg, w, pid)
    requires w.procs[pid].pc.Running? && w.procs[pid].pc.sink.Cache? && (a.Emit? || a.EmitFails?)
    requires Takes(cfg, w, w', pid, RunStep(cfg, ViewOf(cfg, w, pid), a))
    ensures Good(cfg, w, w', pid)
  {
    if a.Emit? {
      WroteIsGood(cfg, w, w', pid, a.chunk, a.chunk, false);
    } else {
      WroteIsGood(cfg, w, w', pid, a.chunk[..a.stored], a.chunk[..a.printed], true);
    }
  }

  lemma FinishUncached(cfg: Config, w: World, w': World, pid: nat, code: int)
    requires Ready(cfg, w, pid) && w.procs[pid].pc == Running(NoCache) && w' == Moved(cfg, w, pid, Exited(code))
    requires code == 0 ==> w.procs[pid].out == cfg.output(w.procs[pid].inv)
    ensures Good(cfg, w, w', pid)
  {
    MoveQuiet(cfg, w, w', pid, Exited(code));
    if code == 0 {
      assert ExplainedBy(cfg, w', pid, pid);
    }
  }

  lemma FinishCommits(cfg: Config, w: World, w': World, pid: nat, lock: nat, ino: nat)
    requires Ready(cfg, w, pid) && w.procs[pid].pc == Running(Cache(lock, ino, false))
    requires w.procs[pid].out == cfg.output(w.procs[pid].inv) && w' == Moved(cfg, w, pid, Committing(lock, ino))
    ensures Good(cfg, w, w', pid)
  {
    MoveQuiet(cfg, w, w', pid, Committing(lock, ino));
    HoldMoves(cfg, w, w', pid);
  }

  lemma FinishPurges(cfg: Config, w: World, w': World, pid: nat, code: int, lock: nat)
    requires Ready(cfg, w, pid) && w.procs[pid].pc.Running? && Held(w.procs[pid].pc) == Some(lock) && code != 0
    requires w' == Moved(cfg, w, pid, Purging(RmEnd, ThenExit(code, lock)))
    ensures Good(cfg, w, w', pid)
  {
    MoveQuiet(cfg, w, w', pid, Purging(RmEnd, ThenExit(code, lock)));
    HoldMoves(cfg, w, w', pid);
  }

  lemma FinishStep(cfg: Config, w: World, w': World, pid: nat, a: Action)
    requires Ready(cfg, w, pid)
    requires w.procs[pid].pc.Running? && a.Finish?
    requires Takes(cfg, w, w', pid, RunStep(cfg, ViewOf(cfg, w, pid), a))
    ensures Good(cfg, w, w', pid)
  {
    var sink := w.procs[pid].pc.sink;
    if sink.NoCache? {
      FinishUncached(cfg, w, w', pid, a.code);
    } else if a.code == 0 {
      FinishCommits(cfg, w, w', pid, sink.lock, sink.ino);
    } else {
      FinishPurges(cfg, w, w', pid, a.code, sink.lock);
    }
  }

  lemma RunSteps(cfg: Config, w: World, w': World, pid: nat, a: Action)
    requires Ready(cfg, w, pid)
    requires w.procs[pid].pc.Running?
    requires Takes(cfg, w, w', pid, RunStep(cfg, ViewOf(cfg, w, pid), a))
    ensures Good(cfg, w, w', pid)
  {
    if w.procs[pid].pc.sink.Cache? && (a.Emit? || a.EmitFails?) {
      EmitStep(cfg, w, w', pid, a);
    } else if a.Finish? {
      FinishStep(cfg, w, w', pid, a);
    } else {
      QuietStep(cfg, w, w', pid);
    }
  }

  /** Unlinking in one's own entry while holding the lock. */
  lemma UnlinkShape(cfg: Config, w: World, w': World, pid: nat, f: File, pc: Pc)
    requires Ready(cfg, w, pid) && Held(w.procs[pid].pc).Some?
    requires var v := ViewOf(cfg, w, pid);
             w' == Put(w, SlotOf(cfg, w, pid), pid, v.(entry := Without(v.entry, f), proc := v.proc.(pc := pc)))
    requires Held(pc).None? || Held(pc) == Held(w.procs[pid].pc)
    ensures Touches(cfg, w, w', pid) && Respects(cfg, w, w', pid)
    ensures var s := SlotOf(cfg, w, pid);
            && FilesAt(w', s) == FilesAt(w, s) - {f}
            && w'.inodes == w.inodes && w'.procs == w.procs[pid := w.procs[pid].(pc := pc)]
            && forall g :: g in FilesAt(w', s) ==> Bound(cfg, w', s, g)
  {
    var s := SlotOf(cfg, w, pid);
    HolderHolds(cfg, w, pid);
    AloneRespects(cfg, w, w', pid, Held(w.procs[pid].pc).value);
    forall g | g in FilesAt(w', s) ensures Bound(cfg, w', s, g) {
      assert Bound(cfg, w, s, g);
    }
  }

  lemma OnlyStartLeft(files: map<File, nat>)
    requires Start in files && Stdout !in files && End !in files && Served !in files
    ensures files.Keys == {Start}
  {
    forall f | f in files ensures f == Start {
      assert f.Start? || f.Stdout? || f.End? || f.Served?;
    }
  }

  /** With nothing but `start` in the directory, that is the whole listing. */
  lemma OnlyStartListed(order: seq<File>)
    requires Lists(order, {Start})
    ensures order == [Start]
  {
    assert |order| == |multiset(order)| == 1;
    assert order[0] in multiset(order);
  }

  function Unlinked(cfg: Config, w: World, pid: nat, f: File, pc: Pc): World
    requires pid in w.procs
  {
    var v := ViewOf(cfg, w, pid);
    Put(w, SlotOf(cfg, w, pid), pid, v.(entry := Without(v.entry, f), proc := v.proc.(pc := pc)))
  }

  /** A purge in its first two steps takes one name from its own entry and goes on. */
  lemma FileUnlinked(cfg: Config, w: World, w': World, pid: nat, f: File, next: Stage)
    requires Ready(cfg, w, pid) && w.procs[pid].pc.Purging?
    requires var stage := w.procs[pid].pc.stage;
             (stage.RmEnd? && f == End && next.RmStdout?) || (stage.RmStdout? && f == Stdout && next.ListDir?)
    requires w' == Unlinked(cfg, w, pid, f, Purging(next, w.procs[pid].pc.after))
    ensures Good(cfg, w, w', pid)
  {
    HolderHolds(cfg, w, pid);
    UnlinkShape(cfg, w, w', pid, f, Purging(next, w.procs[pid].pc.after));
    LockSurvives(cfg, w, w', pid, Held(w.procs[pid].pc).value);
  }

  lemma FileStep(cfg: Config, w: World, w': World, pid: nat, order: seq<File>)
    requires Ready(cfg, w, pid)
    requires w.procs[pid].pc.Purging? && (w.procs[pid].pc.stage.RmEnd? || w.procs[pid].pc.stage.RmStdout?)
    requires Takes(cfg, w, w', pid, RemoveStep(ViewOf(cfg, w, pid), order))
    ensures Good(cfg, w, w', pid)
  {
    if w.procs[pid].pc.stage.RmEnd? {
      FileUnlinked(cfg, w, w', pid, End, RmStdout);
    } else {
      FileUnlinked(cfg, w, w', pid, Stdout, ListDir);
    }
  }

  lemma ListStep(cfg: Config, w: World, w': World, pid: nat, order: seq<File>)
    requires Ready(cfg, w, pid)
    requires w.procs[pid].pc.Purging? && w.procs[pid].pc.stage.ListDir?
    requires Takes(cfg, w, w', pid, RemoveStep(ViewOf(cfg, w, pid), order))
    ensures Good(cfg, w, w', pid)
  {
    OnlyStartLeft(FilesAt(w, SlotOf(cfg, w, pid)));
    OnlyStartListed(order);
    assert w'.procs[pid].pc == Purging(RmNames([Start]), w.procs[pid].pc.after);
    QuietStep(cfg, w, w', pid);
  }

  lemma NameStep(cfg: Config, w: World, w': World, pid: nat, order: seq<File>)
    requires Ready(cfg, w, pid)
    requires w.procs[pid].pc.Purging? && w.procs[pid].pc.stage == RmNames([Start])
    requires Takes(cfg, w, w', pid, RemoveStep(ViewOf(cfg, w, pid), order))
    ensures Good(cfg, w, w', pid)
  {
    assert [Start][1..] == [];
    UnlinkShape(cfg, w, w', pid, Start, Purging(RmNames([]), w.procs[pid].pc.after));
  }

  /** Removing the directory succeeds only when it is empty. */
  lemma RmdirStep(cfg: Config, w: World, w': World, pid: nat, order: seq<File>)
    requires Ready(cfg, w, pid) && w.procs[pid].pc.Purging? && w.procs[pid].pc.stage == RmNames([])
    requires Takes(cfg, w, w', pid, RemoveStep(ViewOf(cfg, w, pid), order))
    ensures Good(cfg, w, w', pid)
  {
    var s := SlotOf(cfg, w, pid);
    assert FilesAt(w', s) == FilesAt(w, s);
    if EntryAt(w', s) == EntryAt(w, s) {
      QuietStep(cfg, w, w', pid);
    } else {
      FreeRespects(cfg, w, w', pid);
    }
  }

  lemma PurgeSteps(cfg: Config, w: World, w': World, pid: nat, order: seq<File>)
    requires Ready(cfg, w, pid)
    requires w.procs[pid].pc.Purging?
    requires Takes(cfg, w, w', pid, RemoveStep(ViewOf(cfg, w, pid), order))
    ensures Good(cfg, w, w', pid)
  {
    match w.procs[pid].pc.stage {
      case RmEnd => FileStep(cfg, w, w', pid, order);
      case RmStdout => FileStep(cfg, w, w', pid, order);
      case ListDir => ListStep(cfg, w, w', pid, order);
      case RmNames(rest) =>
        if rest != [] {
          NameStep(cfg, w, w', pid, order);
        } else {
          RmdirStep(cfg, w, w', pid, order);
        }
    }
  }

  lemma ActIsGood(cfg: Config, w: World, w': World, pid: nat, a: Action)
    requires Ready(cfg, w, pid) && Benign(Do(pid, a))
    requires Takes(cfg, w, w', pid, Act(cfg, pid, ViewOf(cfg, w, pid), a))
    ensures Good(cfg, w, w', pid)
  {
    match w.procs[pid].pc {
      case StatEnd => LookupSteps(cfg, w, w', pid, a);
      case OpenStdout => LookupSteps(cfg, w, w', pid, a);
      case StatStart => LookupSteps(cfg, w, w', pid, a);
      case Reading(_, _) => ReadSteps(cfg, w, w', pid, a);
      case AppendServed(_) => LogStep(cfg, w, w', pid, a);
      case MakeDir => MkdirStep(cfg, w, w', pid, a);
      case CreateStart => LockStep(cfg, w, w', pid, a);
      case CreateStdout(_) => SinkStep(cfg, w, w', pid, a);
      case Running(_) => RunSteps(cfg, w, w', pid, a);
      case Committing(_, _) => CommitStep(cfg, w, w', pid, a);
      case Purging(_, _) => PurgeSteps(cfg, w, w', pid, a.order);
      case Exited(_) =>
      case Crashed =>
    }
  }

  lemma ProcessIsGood(cfg: Config, w: World, pid: nat, a: Action)
    requires Ready(cfg, w, pid) && Step(cfg, w, Do(pid, a)).Some? && Benign(Do(pid, a))
    ensures Good(cfg, w, Step(cfg, w, Do(pid, a)).value, pid)
  {
    ActIsGood(cfg, w, Step(cfg, w, Do(pid, a)).value, pid, a);
  }

  lemma CrashKeepsInv(cfg: Config, w: World, pid: nat)
    requires Inv(cfg, w) && Step(cfg, w, Crash(pid)).Some?
    ensures Inv(cfg, Step(cfg, w, Crash(pid)).value)
  {
    assert EntryOk(cfg, w, SlotOf(cfg, w, pid));
    var w' := Step(cfg, w, Crash(pid)).value;
    QuietStep(cfg, w, w', pid);
    GoodKeepsInv(cfg, w, w', pid);
  }

  /** One more process does not disturb an entry. */
  lemma SpawnedBeside(cfg: Config, w: World, w': World, pid: nat, s: string)
    requires pid !in w.procs && pid in w'.procs && w' == w.(procs := w.procs[pid := w'.procs[pid]])
    requires EntryOk(cfg, w, s)
    ensures EntryOk(cfg, w', s) && FilesAt(w', s) == FilesAt(w, s) && (Sealed(cfg, w, s) ==> Sealed(cfg, w', s))
  {
    forall f | f in FilesAt(w', s) ensures Bound(cfg, w', s, f) {
      assert Bound(cfg, w, s, f);
    }
  }

  lemma SpawnKeepsInv(cfg: Config, w: World, pid: nat, inv: Invocation)
    requires Inv(cfg, w) && Step(cfg, w, Spawn(pid, inv)).Some?
    ensures Inv(cfg, Step(cfg, w, Spawn(pid, inv)).value)
  {
    var w' := Step(cfg, w, Spawn(pid, inv)).value;
    forall s ensures EntryOk(cfg, w', s) {
      assert EntryOk(cfg, w, s);
      SpawnedBeside(cfg, w, w', pid, s);
    }
    forall q | q in w'.procs ensures ProcOk(cfg, w', q) {
      if q != pid {
        assert ProcOk(cfg, w, q);
        if Explained(cfg, w, q) {
          ExplainedStays(cfg, w, w', q);
        }
        assert EntryOk(cfg, w, SlotOf(cfg, w, q));
        SpawnedBeside(cfg, w, w', pid, SlotOf(cfg, w, q));
      }
    }
  }

  /** An outside removal takes one name away and changes nothing else. */
  lemma OutsideNames(cfg: Config, w: World, slot: string, f: File, s: string)
    ensures var w' := Step(cfg, w, OutsideRemove(slot, f)).value;
            && w'.procs == w.procs && w'.inodes == w.inodes
            && (forall g :: g in FilesAt(w', s) ==> g in FilesAt(w, s) && FilesAt(w', s)[g] == FilesAt(w, s)[g])
            && (forall g :: g in FilesAt(w, s) && g != f ==> g in FilesAt(w', s))
  {
  }

  lemma OutsideShape(cfg: Config, w: World, w': World, f: File, s: string)
    requires EntryOk(cfg, w, s) && (f == End || f == Served)
    requires w'.procs == w.procs && w'.inodes == w.inodes
    requires forall g :: g in FilesAt(w', s) ==> g in FilesAt(w, s) && FilesAt(w', s)[g] == FilesAt(w, s)[g]
    requires forall g :: g in FilesAt(w, s) && g != f ==> g in FilesAt(w', s)
    ensures EntryOk(cfg, w', s) && (Sealed(cfg, w, s) ==> Sealed(cfg, w', s))
  {
    forall g | g in FilesAt(w', s) ensures Bound(cfg, w', s, g) {
      assert Bound(cfg, w, s, g);
    }
    if Sealed(cfg, w, s) {
      SealedSurvives(cfg, w, w', s);
    }
  }

  lemma OutsideKeepsInv(cfg: Config, w: World, slot: string, f: File)
    requires Inv(cfg, w) && (f == End || f == Served)
    ensures Inv(cfg, Step(cfg, w, OutsideRemove(slot, f)).value)
  {
    var w' := Step(cfg, w, OutsideRemove(slot, f)).value;
    forall s ensures EntryOk(cfg, w', s) {
      assert EntryOk(cfg, w, s);
      OutsideNames(cfg, w, slot, f, s);
      OutsideShape(cfg, w, w', f, s);
    }
    forall q | q in w'.procs ensures ProcOk(cfg, w', q) {
      assert ProcOk(cfg, w, q);
      if Explained(cfg, w, q) {
        ExplainedStays(cfg, w, w', q);
      }
      assert EntryOk(cfg, w, SlotOf(cfg, w, q));
      OutsideNames(cfg, w, slot, f, SlotOf(cfg, w, q));
      OutsideShape(cfg, w, w', f, SlotOf(cfg, w, q));
    }
  }

  lemma StepKeepsInv(cfg: Config, w: World, e: Event)
    requires Inv(cfg, w) && Benign(e) && Step(cfg, w, e).Some?
    ensures Inv(cfg, Step(cfg, w, e).value)
  {
    match e {
      case Spawn(pid, inv) => SpawnKeepsInv(cfg, w, pid, inv);
      case Do(pid, a) =>
        assert EntryOk(cfg, w, SlotOf(cfg, w, pid));
        ProcessIsGood(cfg, w, pid, a);
        GoodKeepsInv(cfg, w, Step(cfg, w, e).value, pid);
      case Crash(pid) => CrashKeepsInv(cfg, w, pid);
      case OutsideRemove(slot, f) => OutsideKeepsInv(cfg, w, slot, f);
    }
  }

  lemma {:induction false} RunKeepsInv(cfg: Config, w: World, events: seq<Event>)
    requires Inv(cfg, w) && (forall e :: e in events ==> Benign(e)) && Run(cfg, w, events).Some?
    ensures Inv(cfg, Run(cfg, w, events).value)
    decreases |events|
  {
    if events != [] {
      StepKeepsInv(cfg, w, events[0]);
      RunKeepsInv(cfg, Step(cfg, w, events[0]).value, events[1..]);
    }
  }

  lemma {:induction false} RunAppend(cfg: Config, w: World, events: seq<Event>, e: Event)
    requires Run(cfg, w, events).Some?
    ensures Run(cfg, w, events + [e]) == Step(cfg, Run(cfg, w, events).value, e)
    decreases |events|
  {
    if events == [] {
      assert [e][1..] == [];
      assert [] + [e] == [e];
    } else {
      assert (events + [e])[0] == events[0];
      assert (events + [e])[1..] == events[1..] + [e];
      RunAppend(cfg, Step(cfg, w, events[0]).value, events[1..], e);
    }
  }
}
