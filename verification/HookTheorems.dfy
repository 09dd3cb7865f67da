/** What the hook promises over whole runs. */
module HookTheorems {
  import opened Options
  import opened HookKey
  import opened HookCache
  import opened HookInvariant

  ghost predicate BenignRun(cfg: Config, events: seq<Event>) {
    (forall e :: e in events ==> Benign(e)) && Run(cfg, EMPTY, events).Some?
  }

  lemma Reachable(cfg: Config, events: seq<Event>)
    requires BenignRun(cfg, events)
    ensures Inv(cfg, Run(cfg, EMPTY, events).value)
  {
    RunKeepsInv(cfg, EMPTY, events);
  }

  // ----- committed entries -----

  /** A commit marker stands beside the whole output of a command with this key. */
  lemma CommittedIsComplete(cfg: Config, events: seq<Event>, slot: string)
    requires BenignRun(cfg, events)
    ensures var w := Run(cfg, EMPTY, events).value;
            End in FilesAt(w, slot) ==>
              && Bound(cfg, w, slot, Start)
              && Bound(cfg, w, slot, Stdout)
              && var file := InodeOf(cfg, w, slot, Stdout);
                 file.bytes == cfg.output(w.procs[file.creator].inv)
  {
    Reachable(cfg, events);
    var w := Run(cfg, EMPTY, events).value;
    assert EntryOk(cfg, w, slot);
  }

  lemma SealedUnderGood(cfg: Config, w: World, w': World, pid: nat, slot: string)
    requires pid in w.procs && Good(cfg, w, w', pid) && ProcOk(cfg, w, pid) && Sealed(cfg, w, slot)
    ensures Sealed(cfg, w', slot) && FilesAt(w', slot)[Stdout] == FilesAt(w, slot)[Stdout]
    ensures InodeOf(cfg, w', slot, Stdout) == InodeOf(cfg, w, slot, Stdout)
  {
    if slot != SlotOf(cfg, w, pid) {
      SealedElsewhere(cfg, w, w', pid, slot);
    } else if Held(w.procs[pid].pc).Some? {
      assert HoldsLock(cfg, w, pid, Held(w.procs[pid].pc).value);
    }
  }

  lemma StepKeepsSealed(cfg: Config, w: World, e: Event, slot: string)
    requires Inv(cfg, w) && Benign(e) && Step(cfg, w, e).Some? && Sealed(cfg, w, slot)
    ensures var w' := Step(cfg, w, e).value;
            Sealed(cfg, w', slot) && FilesAt(w', slot)[Stdout] == FilesAt(w, slot)[Stdout] &&
            InodeOf(cfg, w', slot, Stdout) == InodeOf(cfg, w, slot, Stdout)
  {
    var w' := Step(cfg, w, e).value;
    match e {
      case Spawn(pid, inv) =>
        assert FilesAt(w', slot) == FilesAt(w, slot);
      case Do(pid, a) =>
        assert EntryOk(cfg, w, SlotOf(cfg, w, pid));
        ProcessIsGood(cfg, w, pid, a);
        SealedUnderGood(cfg, w, w', pid, slot);
      case Crash(pid) =>
        assert FilesAt(w', slot) == FilesAt(w, slot);
      case OutsideRemove(s, f) =>
        OutsideNames(cfg, w, s, f, slot);
        SealedSurvives(cfg, w, w', slot);
    }
  }

  /** Once committed, `stdout` is never written or unlinked again, even after `end` is removed from outside. */
  lemma {:induction false} CommittedIsFrozen(cfg: Config, w: World, more: seq<Event>, slot: string)
    requires Inv(cfg, w) && Sealed(cfg, w, slot)
    requires (forall e :: e in more ==> Benign(e)) && Run(cfg, w, more).Some?
    ensures var w' := Run(cfg, w, more).value;
            Sealed(cfg, w', slot) && FilesAt(w', slot)[Stdout] == FilesAt(w, slot)[Stdout] &&
            InodeOf(cfg, w', slot, Stdout) == InodeOf(cfg, w, slot, Stdout)
    decreases |more|
  {
    if more != [] {
      StepKeepsInv(cfg, w, more[0]);
      StepKeepsSealed(cfg, w, more[0], slot);
      CommittedIsFrozen(cfg, Step(cfg, w, more[0]).value, more[1..], slot);
    }
  }

  lemma StepKeepsEndAway(cfg: Config, w: World, e: Event, slot: string)
    requires Inv(cfg, w) && Benign(e) && Step(cfg, w, e).Some? && Sealed(cfg, w, slot) && End !in FilesAt(w, slot)
    ensures End !in FilesAt(Step(cfg, w, e).value, slot)
  {
    match e {
      case Do(pid, a) =>
        assert ProcOk(cfg, w, pid);
        assert FilesAt(w, slot) == Files(EntryAt(w, slot));
      case OutsideRemove(s, f) => OutsideNames(cfg, w, s, f, slot);
      case _ =>
    }
  }

  /** A complete entry whose `end` was removed is never announced again: `start` stays, and so nobody writes there. */
  lemma {:induction false} EndNeverReturns(cfg: Config, w: World, more: seq<Event>, slot: string)
    requires Inv(cfg, w) && Sealed(cfg, w, slot) && End !in FilesAt(w, slot)
    requires (forall e :: e in more ==> Benign(e)) && Run(cfg, w, more).Some?
    ensures End !in FilesAt(Run(cfg, w, more).value, slot)
    decreases |more|
  {
    if more != [] {
      StepKeepsInv(cfg, w, more[0]);
      StepKeepsSealed(cfg, w, more[0], slot);
      StepKeepsEndAway(cfg, w, more[0], slot);
      EndNeverReturns(cfg, Step(cfg, w, more[0]).value, more[1..], slot);
    }
  }

  // ----- the lock -----

  predicate InWriter(cfg: Config, w: World, pid: nat, slot: string) {
    pid in w.procs && SlotOf(cfg, w, pid) == slot && Held(w.procs[pid].pc).Some?
  }

  /** Between creating `start` and giving it up by commit or unlink, a process is alone in its entry;
      and `stdout` never exists without `start`. */
  lemma OneWriterPerEntry(cfg: Config, events: seq<Event>, p: nat, q: nat, slot: string)
    requires BenignRun(cfg, events)
    ensures var w := Run(cfg, EMPTY, events).value;
            && (InWriter(cfg, w, p, slot) && InWriter(cfg, w, q, slot) ==> p == q)
            && (Stdout in FilesAt(w, slot) ==> Start in FilesAt(w, slot))
  {
    Reachable(cfg, events);
    var w := Run(cfg, EMPTY, events).value;
    assert EntryOk(cfg, w, slot);
    if InWriter(cfg, w, p, slot) && InWriter(cfg, w, q, slot) {
      HolderHolds(cfg, w, p);
      HolderHolds(cfg, w, q);
    }
  }

  /** A step of a process on one key leaves the entry of every other key alone, names and bytes. */
  lemma OtherKeysUntouched(cfg: Config, w: World, pid: nat, a: Action, slot: string, f: File)
    requires Inv(cfg, w) && Benign(Do(pid, a)) && Step(cfg, w, Do(pid, a)).Some? && slot != SlotOf(cfg, w, pid)
    ensures var w' := Step(cfg, w, Do(pid, a)).value;
            && EntryAt(w', slot) == EntryAt(w, slot)
            && (f in FilesAt(w, slot) ==> Bound(cfg, w, slot, f) && Bound(cfg, w', slot, f)
                                          && InodeOf(cfg, w', slot, f) == InodeOf(cfg, w, slot, f))
  {
    assert EntryOk(cfg, w, SlotOf(cfg, w, pid)) && EntryOk(cfg, w, slot);
    ProcessIsGood(cfg, w, pid, a);
    assert f in FilesAt(w, slot) ==> Bound(cfg, w, slot, f);
  }

  // ----- refinement -----

  /** Whoever exits with 0 has printed the whole output of its own command,
      or of the command of a process with the same key. */
  lemma ExitExplained(cfg: Config, events: seq<Event>, pid: nat)
    requires BenignRun(cfg, events)
    ensures var w := Run(cfg, EMPTY, events).value;
            pid in w.procs && w.procs[pid].pc == Exited(0) ==> Explained(cfg, w, pid)
  {
    Reachable(cfg, events);
    var w := Run(cfg, EMPTY, events).value;
    if pid in w.procs {
      assert ProcOk(cfg, w, pid);
    }
  }

  /** Invocations that get as far as computing a key. */
  predicate Startable(invs: set<Invocation>, i: Invocation) {
    i in invs && i.args != []
  }

  /** The key tells apart what has to be told apart. */
  ghost predicate KeysSeparate(cfg: Config, invs: set<Invocation>) {
    forall i, j :: Startable(invs, i) && Startable(invs, j) && Cacheable(cfg, i) && Slot(cfg, i) == Slot(cfg, j)
                   ==> cfg.output(i) == cfg.output(j)
  }

  /** The faults have nothing to spoil: no fault at all, or nothing that can be cached; and bytes may be lost
      where there are none. */
  ghost predicate Harmless(cfg: Config, faults: set<Fault>, invs: set<Invocation>) {
    forall i :: Startable(invs, i) && Cacheable(cfg, i)
                ==> faults == {} || (faults == {WriteBackLost} && cfg.output(i) == "")
  }

  predicate Allowed(faults: set<Fault>, invs: set<Invocation>, e: Event) {
    && (FaultOf(e).Some? ==> FaultOf(e).value in faults)
    && (e.Spawn? ==> e.inv in invs)
  }

  ghost predicate RunOf(cfg: Config, faults: set<Fault>, invs: set<Invocation>, events: seq<Event>) {
    Run(cfg, EMPTY, events).Some? && forall e :: e in events ==> Allowed(faults, invs, e)
  }

  predicate ExitsRight(cfg: Config, w: World, pid: nat) {
    pid in w.procs && w.procs[pid].pc == Exited(0) ==> w.procs[pid].out == cfg.output(w.procs[pid].inv)
  }

  /** The cached hook behaves like the bare command: in every interleaving of processes started on `invs`,
      with no faults but the given kinds, an exit with 0 means that the command's whole output was printed. */
  ghost predicate RefinesCommand(cfg: Config, faults: set<Fault>, invs: set<Invocation>) {
    forall events, pid :: RunOf(cfg, faults, invs, events) ==> ExitsRight(cfg, Run(cfg, EMPTY, events).value, pid)
  }

  /** Every process was started on one of the given invocations. */
  predicate OnlyFrom(w: World, invs: set<Invocation>) {
    forall q :: q in w.procs ==> Startable(invs, w.procs[q].inv)
  }

  lemma InvocationsFixed(cfg: Config, w: World, e: Event)
    requires Step(cfg, w, e).Some?
    ensures var w' := Step(cfg, w, e).value;
            forall q :: q in w'.procs ==>
              if q in w.procs then w'.procs[q].inv == w.procs[q].inv
              else e.Spawn? && w'.procs[q].inv == e.inv && e.inv.args != []
  {
  }

  /** Losing bytes of an empty `stdout` is no step at all. */
  lemma NothingToLose(cfg: Config, w: World, pid: nat, kept: nat, invs: set<Invocation>)
    requires Inv(cfg, w) && OnlyFrom(w, invs)
    requires forall i :: Startable(invs, i) && Cacheable(cfg, i) ==> cfg.output(i) == ""
    ensures Step(cfg, w, Do(pid, CloseLoses(kept))).None?
  {
    if pid in w.procs {
      assert ProcOk(cfg, w, pid);
    }
  }

  lemma {:induction false} HarmlessKeepsInv(cfg: Config, w: World, events: seq<Event>, faults: set<Fault>, invs: set<Invocation>)
    requires Inv(cfg, w) && OnlyFrom(w, invs) && Run(cfg, w, events).Some?
    requires forall e :: e in events ==> Allowed(faults, invs, e)
    requires Harmless(cfg, faults, invs) && faults <= {WriteBackLost}
    ensures Inv(cfg, Run(cfg, w, events).value) && OnlyFrom(Run(cfg, w, events).value, invs)
    decreases |events|
  {
    if events != [] {
      var e := events[0];
      assert e in events;
      if e.Do? && e.action.CloseLoses? {
        assert WriteBackLost in faults;
        NothingToLose(cfg, w, e.pid, e.action.kept, invs);
      }
      StepKeepsInv(cfg, w, e);
      InvocationsFixed(cfg, w, e);
      HarmlessKeepsInv(cfg, Step(cfg, w, e).value, events[1..], faults, invs);
    }
  }

  // ----- nothing to cache -----

  /** A process that can neither find nor leave anything in the cache. */
  predicate BareProc(cfg: Config, p: Proc) {
    && !Cacheable(cfg, p.inv)
    && match p.pc
       case StatEnd => p.out == ""
       case OpenStdout => p.out == ""
       case Purging(_, ThenPrepare) => p.out == ""
       case StatStart => p.out == ""
       case Running(NoCache) => true
       case Exited(code) => code == 0 ==> p.out == cfg.output(p.inv)
       case Crashed => true
       case _ => false
  }

  ghost predicate Bare(cfg: Config, w: World) {
    && (forall slot :: FilesAt(w, slot) == map[])
    && (forall q :: q in w.procs ==> BareProc(cfg, w.procs[q]))
  }

  lemma BareAct(cfg: Config, pid: nat, v: View, a: Action)
    requires BareProc(cfg, v.proc) && Files(v.entry) == map[] && Act(cfg, pid, v, a).Some?
    ensures var v' := Act(cfg, pid, v, a).value; BareProc(cfg, v'.proc) && Files(v'.entry) == map[]
  {
  }

  lemma StepKeepsBare(cfg: Config, w: World, e: Event)
    requires Bare(cfg, w) && Step(cfg, w, e).Some? && (e.Spawn? ==> !Cacheable(cfg, e.inv))
    ensures Bare(cfg, Step(cfg, w, e).value)
  {
    var w' := Step(cfg, w, e).value;
    match e {
      case Do(pid, a) =>
        var slot := SlotOf(cfg, w, pid);
        assert FilesAt(w, slot) == map[];
        BareAct(cfg, pid, View(EntryAt(w, slot), w.inodes, w.procs[pid]), a);
        forall s ensures FilesAt(w', s) == map[] {
          assert FilesAt(w, s) == map[];
        }
      case OutsideRemove(slot, f) =>
        forall s ensures FilesAt(w', s) == map[] {
          assert FilesAt(w, s) == map[];
        }
      case _ =>
        forall s ensures FilesAt(w', s) == map[] {
          assert FilesAt(w, s) == map[];
        }
    }
  }

  lemma {:induction false} RunKeepsBare(cfg: Config, w: World, events: seq<Event>)
    requires Bare(cfg, w) && Run(cfg, w, events).Some?
    requires forall e :: e in events && e.Spawn? && e.inv.args != [] ==> !Cacheable(cfg, e.inv)
    ensures Bare(cfg, Run(cfg, w, events).value)
    decreases |events|
  {
    if events != [] {
      assert events[0] in events;
      StepKeepsBare(cfg, w, events[0]);
      RunKeepsBare(cfg, Step(cfg, w, events[0]).value, events[1..]);
    }
  }

  lemma NothingCachedRefines(cfg: Config, faults: set<Fault>, invs: set<Invocation>)
    requires forall i :: Startable(invs, i) ==> !Cacheable(cfg, i)
    ensures RefinesCommand(cfg, faults, invs)
  {
    forall events: seq<Event>, pid: nat | RunOf(cfg, faults, invs, events)
      ensures ExitsRight(cfg, Run(cfg, EMPTY, events).value, pid)
    {
      forall e | e in events && e.Spawn? && e.inv.args != [] ensures !Cacheable(cfg, e.inv) {
        assert Allowed(faults, invs, e);
        assert Startable(invs, e.inv);
      }
      RunKeepsBare(cfg, EMPTY, events);
    }
  }

  lemma ExplainedIsRight(cfg: Config, w: World, pid: nat, invs: set<Invocation>)
    requires Inv(cfg, w) && OnlyFrom(w, invs) && KeysSeparate(cfg, invs)
    ensures ExitsRight(cfg, w, pid)
  {
    if pid in w.procs && w.procs[pid].pc == Exited(0) {
      assert ProcOk(cfg, w, pid);
      var q :| ExplainedBy(cfg, w, pid, q);
    }
  }

  /** Separate keys and harmless faults are enough. */
  lemma SeparateKeysSuffice(cfg: Config, faults: set<Fault>, invs: set<Invocation>)
    requires KeysSeparate(cfg, invs) && Harmless(cfg, faults, invs)
    ensures RefinesCommand(cfg, faults, invs)
  {
    if some :| Startable(invs, some) && Cacheable(cfg, some) {
      forall events: seq<Event>, pid: nat | RunOf(cfg, faults, invs, events)
        ensures ExitsRight(cfg, Run(cfg, EMPTY, events).value, pid)
      {
        HarmlessKeepsInv(cfg, EMPTY, events, faults, invs);
        ExplainedIsRight(cfg, Run(cfg, EMPTY, events).value, pid, invs);
      }
    } else {
      NothingCachedRefines(cfg, faults, invs);
    }
  }

  /** On clean arguments, and unless SHA-256 collides on the given invocations, the key is good enough. */
  lemma CleanInvocationsSuffice(cfg: Config, invs: set<Invocation>)
    requires forall i :: i in invs ==> Clean(i)
    requires forall i, j :: i in invs && j in invs && cfg.hash(Preimage(i)) == cfg.hash(Preimage(j))
                            ==> Preimage(i) == Preimage(j)
    ensures RefinesCommand(cfg, {}, invs)
    ensures forall i, j :: i in invs && j in invs && Slot(cfg, i) == Slot(cfg, j) ==> i == j
  {
    forall i, j | i in invs && j in invs && Slot(cfg, i) == Slot(cfg, j) ensures i == j {
      EntriesDisjoint(cfg.dir, cfg.hash(Preimage(i)), cfg.hash(Preimage(j)), "", "");
      DecodePreimage(i);
      DecodePreimage(j);
    }
    SeparateKeysSuffice(cfg, {}, invs);
  }

  // ----- the limit on standard input -----

  /** The input of a process exceeds the limit. */
  predicate TooLarge(cfg: Config, p: Proc) {
    cfg.stdinMax != 0 && |p.inv.stdin| > cfg.stdinMax
  }

  /** Where a process with such an input never comes: on the way to a sink, and from there. */
  predicate NoSink(p: Proc) {
    match p.pc
    case MakeDir => false
    case CreateStart => false
    case CreateStdout(_) => false
    case Running(sink) => sink.NoCache?
    case Committing(_, _) => false
    case Purging(_, after) => after.ThenPrepare?
    case _ => true
  }

  ghost predicate LargeWithoutSink(cfg: Config, w: World) {
    forall q :: q in w.procs && TooLarge(cfg, w.procs[q]) ==> NoSink(w.procs[q])
  }

  lemma LargeAct(cfg: Config, pid: nat, v: View, a: Action)
    requires TooLarge(cfg, v.proc) && NoSink(v.proc) && Act(cfg, pid, v, a).Some?
    ensures var v' := Act(cfg, pid, v, a).value;
            && v'.proc.inv == v.proc.inv && NoSink(v'.proc)
            && forall f :: f in Files(v'.entry) && f != Served ==> f in Files(v.entry) && Files(v'.entry)[f] == Files(v.entry)[f]
  {
  }

  lemma {:induction false} RunKeepsLarge(cfg: Config, w: World, events: seq<Event>)
    requires LargeWithoutSink(cfg, w) && Run(cfg, w, events).Some?
    ensures LargeWithoutSink(cfg, Run(cfg, w, events).value)
    decreases |events|
  {
    if events != [] {
      var e, w' := events[0], Step(cfg, w, events[0]).value;
      forall q | q in w'.procs && TooLarge(cfg, w'.procs[q]) ensures NoSink(w'.procs[q]) {
        InvocationsFixed(cfg, w, e);
        if e.Do? && e.pid == q {
          LargeAct(cfg, q, ViewOf(cfg, w, q), e.action);
        }
      }
      RunKeepsLarge(cfg, w', events[1..]);
    }
  }

  /** Whatever has happened, a process whose input exceeds a limit other than 0 creates neither `start` nor `stdout` nor
      `end`, in its own entry or in any other. */
  lemma LargeInputCreatesNothing(cfg: Config, events: seq<Event>, pid: nat, a: Action, slot: string, f: File)
    requires Run(cfg, EMPTY, events).Some? && pid in Run(cfg, EMPTY, events).value.procs && f != Served
    requires cfg.stdinMax != 0 && |Run(cfg, EMPTY, events).value.procs[pid].inv.stdin| > cfg.stdinMax
    requires Step(cfg, Run(cfg, EMPTY, events).value, Do(pid, a)).Some?
    ensures var w := Run(cfg, EMPTY, events).value; var w' := Step(cfg, w, Do(pid, a)).value;
            f in FilesAt(w', slot) ==> f in FilesAt(w, slot) && FilesAt(w', slot)[f] == FilesAt(w, slot)[f]
  {
    RunKeepsLarge(cfg, EMPTY, events);
    var w := Run(cfg, EMPTY, events).value;
    LargeAct(cfg, pid, ViewOf(cfg, w, pid), a);
  }

  // ----- stopping a purge -----

  ghost predicate OnlyPurges(pid: nat, events: seq<Event>) {
    forall e :: e in events ==> e.Do? && e.pid == pid && e.action.Remove?
  }

  lemma PurgeStepOnlyRemoves(cfg: Config, w: World, pid: nat, e: Event)
    requires pid in w.procs && OnlyPurges(pid, [e]) && Step(cfg, w, e).Some?
    ensures var w' := Step(cfg, w, e).value;
            pid in w'.procs && SlotOf(cfg, w', pid) == SlotOf(cfg, w, pid) &&
            FilesAt(w', SlotOf(cfg, w, pid)).Keys <= FilesAt(w, SlotOf(cfg, w, pid)).Keys
  {
    assert e in [e];
  }

  lemma {:induction false} EndStaysAway(cfg: Config, w: World, pid: nat, events: seq<Event>)
    requires pid in w.procs && OnlyPurges(pid, events) && Run(cfg, w, events).Some?
    requires End !in FilesAt(w, SlotOf(cfg, w, pid))
    ensures End !in FilesAt(Run(cfg, w, events).value, SlotOf(cfg, w, pid))
    decreases |events|
  {
    if events != [] {
      assert events[0] in events;
      PurgeStepOnlyRemoves(cfg, w, pid, events[0]);
      EndStaysAway(cfg, Step(cfg, w, events[0]).value, pid, events[1..]);
    }
  }

  /** Wherever a purge is stopped, `end` never stands beside a missing `stdout` unless it did so before:
      the first step already takes `end` away, and nothing brings it back. Holds in any state of the disk. */
  lemma PurgePrefixSafe(cfg: Config, w: World, pid: nat, events: seq<Event>)
    requires pid in w.procs && w.procs[pid].pc.Purging? && w.procs[pid].pc.stage == RmEnd
    requires OnlyPurges(pid, events) && Run(cfg, w, events).Some?
    ensures var slot := SlotOf(cfg, w, pid); var w' := Run(cfg, w, events).value;
            && (events != [] ==> End !in FilesAt(w', slot))
            && (events == [] ==> w' == w)
            && ((End in FilesAt(w, slot) ==> Stdout in FilesAt(w, slot)) ==>
                (End in FilesAt(w', slot) ==> Stdout in FilesAt(w', slot)))
  {
    if events != [] {
      assert events[0] in events;
      EndStaysAway(cfg, Step(cfg, w, events[0]).value, pid, events[1..]);
    }
  }
}
