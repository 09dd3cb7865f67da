/** Runs that go wrong: separate keys and a fault-free environment are not only enough, they are needed. */
module HookRuns {
  import opened Options
  import opened HookKey
  import opened HookCache
  import opened HookInvariant
  import opened HookTheorems

  /** A run under some allowed faults, together with the world it ends in. */
  datatype Trace = Trace(faults: set<Fault>, invs: set<Invocation>, events: seq<Event>, world: World)

  ghost predicate Traced(cfg: Config, t: Trace) {
    RunOf(cfg, t.faults, t.invs, t.events) && Run(cfg, EMPTY, t.events) == Some(t.world)
  }

  lemma Extend(cfg: Config, t: Trace, e: Event) returns (u: Trace)
    requires Traced(cfg, t) && Allowed(t.faults, t.invs, e) && Step(cfg, t.world, e).Some?
    ensures Traced(cfg, u) && u == t.(events := t.events + [e], world := Step(cfg, t.world, e).value)
  {
    RunAppend(cfg, EMPTY, t.events, e);
    u := t.(events := t.events + [e], world := Step(cfg, t.world, e).value);
  }

  ghost predicate SameRules(t: Trace, u: Trace) {
    u.faults == t.faults && u.invs == t.invs
  }

  /** One action of one process, seen from its entry: nothing else moves. */
  lemma Go(cfg: Config, t: Trace, pid: nat, a: Action) returns (u: Trace)
    requires Traced(cfg, t) && Allowed(t.faults, t.invs, Do(pid, a))
    requires pid in t.world.procs && Act(cfg, pid, ViewOf(cfg, t.world, pid), a).Some?
    ensures Traced(cfg, u) && SameRules(t, u)
    ensures var v := Act(cfg, pid, ViewOf(cfg, t.world, pid), a).value;
            && EntryAt(u.world, SlotOf(cfg, t.world, pid)) == v.entry
            && u.world.inodes == v.inodes
            && u.world.procs == t.world.procs[pid := v.proc]
  {
    u := Extend(cfg, t, Do(pid, a));
  }

  lemma Launch(cfg: Config, t: Trace, pid: nat, i: Invocation) returns (u: Trace)
    requires Traced(cfg, t) && pid !in t.world.procs && i.args != [] && i in t.invs
    ensures Traced(cfg, u) && SameRules(t, u)
    ensures u.world == t.world.(procs := t.world.procs[pid := Proc(i, StatEnd, "")])
  {
    u := Extend(cfg, t, Spawn(pid, i));
  }

  lemma Outside(cfg: Config, t: Trace, slot: string, f: File) returns (u: Trace)
    requires Traced(cfg, t) && Allowed(t.faults, t.invs, OutsideRemove(slot, f))
    ensures Traced(cfg, u) && SameRules(t, u)
    ensures EntryAt(u.world, slot) == Without(EntryAt(t.world, slot), f)
    ensures u.world.inodes == t.world.inodes && u.world.procs == t.world.procs
  {
    u := Extend(cfg, t, OutsideRemove(slot, f));
  }

  /** From the stat of `start` to the lock. */
  lemma TakesLock(cfg: Config, t: Trace, pid: nat, lock: nat) returns (u: Trace)
    requires Traced(cfg, t) && pid in t.world.procs && Cacheable(cfg, t.world.procs[pid].inv)
    requires t.world.procs[pid].pc.StatStart?
    requires Start !in FilesAt(t.world, SlotOf(cfg, t.world, pid)) && lock !in t.world.inodes
    ensures Traced(cfg, u) && SameRules(t, u)
    ensures EntryAt(u.world, SlotOf(cfg, t.world, pid)) == Present(FilesAt(t.world, SlotOf(cfg, t.world, pid))[Start := lock])
    ensures u.world.inodes == t.world.inodes[lock := Inode("", pid)]
    ensures u.world.procs == t.world.procs[pid := t.world.procs[pid].(pc := CreateStdout(lock))]
  {
    u := Go(cfg, t, pid, LookForStart(false));
    u := Go(cfg, u, pid, MkdirAll(Made));
    u := Go(cfg, u, pid, Lock(lock, true));
  }

  /** From an empty entry to an open sink. */
  lemma WriterOpens(cfg: Config, t: Trace, pid: nat, lock: nat, ino: nat) returns (u: Trace)
    requires Traced(cfg, t) && pid in t.world.procs && Cacheable(cfg, t.world.procs[pid].inv)
    requires t.world.procs[pid].pc.StatStart?
    requires FilesAt(t.world, SlotOf(cfg, t.world, pid)) == map[]
    requires lock !in t.world.inodes && ino !in t.world.inodes && lock != ino
    ensures Traced(cfg, u) && SameRules(t, u)
    ensures EntryAt(u.world, SlotOf(cfg, t.world, pid)) == Present(map[Start := lock, Stdout := ino])
    ensures u.world.inodes == t.world.inodes[lock := Inode("", pid)][ino := Inode("", pid)]
    ensures u.world.procs == t.world.procs[pid := t.world.procs[pid].(pc := Running(Cache(lock, ino, false)))]
  {
    u := TakesLock(cfg, t, pid, lock);
    u := Go(cfg, u, pid, OpenSink(ino, true));
  }

  /** A new process on an entry without `end` goes on to prepare the cache. */
  lemma NewProcess(cfg: Config, t: Trace, pid: nat, i: Invocation) returns (u: Trace)
    requires Traced(cfg, t) && pid !in t.world.procs && i.args != [] && i in t.invs
    requires End !in FilesAt(t.world, Slot(cfg, i))
    ensures Traced(cfg, u) && SameRules(t, u)
    ensures EntryAt(u.world, Slot(cfg, i)) == EntryAt(t.world, Slot(cfg, i)) && u.world.inodes == t.world.inodes
    ensures u.world.procs == t.world.procs[pid := Proc(i, StatStart, "")]
  {
    u := Launch(cfg, t, pid, i);
    u := Go(cfg, u, pid, LookForEnd(false));
  }

  /** A new process on an entry without `end` gets as far as an open sink. */
  lemma NewWriter(cfg: Config, t: Trace, pid: nat, i: Invocation, lock: nat, ino: nat) returns (u: Trace)
    requires Traced(cfg, t) && pid !in t.world.procs && i.args != [] && i in t.invs && Cacheable(cfg, i)
    requires FilesAt(t.world, Slot(cfg, i)) == map[]
    requires lock !in t.world.inodes && ino !in t.world.inodes && lock != ino
    ensures Traced(cfg, u) && SameRules(t, u)
    ensures EntryAt(u.world, Slot(cfg, i)) == Present(map[Start := lock, Stdout := ino])
    ensures u.world.inodes == t.world.inodes[lock := Inode("", pid)][ino := Inode("", pid)]
    ensures u.world.procs == t.world.procs[pid := Proc(i, Running(Cache(lock, ino, false)), "")]
  {
    u := NewProcess(cfg, t, pid, i);
    u := WriterOpens(cfg, u, pid, lock, ino);
  }

  /** The command of a writer with an empty sink prints something. */
  lemma Prints(cfg: Config, t: Trace, pid: nat, chunk: string) returns (u: Trace)
    requires Traced(cfg, t) && pid in t.world.procs && t.world.procs[pid].out == ""
    requires t.world.procs[pid].pc.Running? && t.world.procs[pid].pc.sink.Cache? && !t.world.procs[pid].pc.sink.broken
    requires var ino := t.world.procs[pid].pc.sink.ino; ino in t.world.inodes && t.world.inodes[ino].bytes == ""
    ensures Traced(cfg, u) && SameRules(t, u)
    ensures EntryAt(u.world, SlotOf(cfg, t.world, pid)) == EntryAt(t.world, SlotOf(cfg, t.world, pid))
    ensures var p := t.world.procs[pid]; var ino := p.pc.sink.ino;
            && u.world.inodes == t.world.inodes[ino := t.world.inodes[ino].(bytes := chunk)]
            && u.world.procs == t.world.procs[pid := p.(out := chunk)]
  {
    assert "" + chunk == chunk;
    u := Go(cfg, t, pid, Emit(chunk));
  }

  /** The command of a writer prints everything at once and exits with 0. */
  lemma WriterFinishes(cfg: Config, t: Trace, pid: nat) returns (u: Trace)
    requires Traced(cfg, t) && pid in t.world.procs && t.world.procs[pid].out == ""
    requires t.world.procs[pid].pc.Running? && t.world.procs[pid].pc.sink.Cache? && !t.world.procs[pid].pc.sink.broken
    requires var ino := t.world.procs[pid].pc.sink.ino; ino in t.world.inodes && t.world.inodes[ino].bytes == ""
    ensures Traced(cfg, u) && SameRules(t, u)
    ensures EntryAt(u.world, SlotOf(cfg, t.world, pid)) == EntryAt(t.world, SlotOf(cfg, t.world, pid))
    ensures var p := t.world.procs[pid]; var sink := p.pc.sink; var all := cfg.output(p.inv);
            && u.world.inodes == t.world.inodes[sink.ino := t.world.inodes[sink.ino].(bytes := all)]
            && u.world.procs == t.world.procs[pid := p.(pc := Committing(sink.lock, sink.ino), out := all)]
  {
    u := Prints(cfg, t, pid, cfg.output(t.world.procs[pid].inv));
    u := Go(cfg, u, pid, Finish(0));
  }

  /** A writer whose command prints everything at once commits, whatever the entry has become. */
  lemma WriterCommits(cfg: Config, t: Trace, pid: nat, end: nat) returns (u: Trace)
    requires Traced(cfg, t) && pid in t.world.procs && t.world.procs[pid].out == ""
    requires t.world.procs[pid].pc.Running? && t.world.procs[pid].pc.sink.Cache? && !t.world.procs[pid].pc.sink.broken
    requires var ino := t.world.procs[pid].pc.sink.ino; ino in t.world.inodes && t.world.inodes[ino].bytes == ""
    requires EntryAt(t.world, SlotOf(cfg, t.world, pid)).Present? && End !in FilesAt(t.world, SlotOf(cfg, t.world, pid))
    requires end !in t.world.inodes
    ensures Traced(cfg, u) && SameRules(t, u)
    ensures var slot := SlotOf(cfg, t.world, pid);
            EntryAt(u.world, slot) == Present(FilesAt(t.world, slot)[End := end])
    ensures var p := t.world.procs[pid]; var ino := p.pc.sink.ino;
            && u.world.inodes == t.world.inodes[ino := t.world.inodes[ino].(bytes := cfg.output(p.inv))][end := Inode("", pid)]
            && u.world.procs == t.world.procs[pid := p.(pc := Exited(0), out := cfg.output(p.inv))]
  {
    u := WriterFinishes(cfg, t, pid);
    u := Go(cfg, u, pid, Commit(end, true));
  }

  /** A reader that has opened `stdout` prints what is there and exits with 0. */
  lemma ReaderPrints(cfg: Config, t: Trace, pid: nat, ino: nat) returns (u: Trace)
    requires Traced(cfg, t) && pid in t.world.procs && t.world.procs[pid].out == ""
    requires t.world.procs[pid].pc == Reading(ino, 0) && ino in t.world.inodes
    ensures Traced(cfg, u) && SameRules(t, u)
    ensures u.world.procs == t.world.procs[pid := t.world.procs[pid].(pc := Exited(0), out := t.world.inodes[ino].bytes)]
  {
    var bytes := t.world.inodes[ino].bytes;
    u := t;
    if bytes != "" {
      u := Go(cfg, u, pid, Copy(|bytes|));
      assert "" + bytes[0..0 + |bytes|] == bytes;
    }
    u := Go(cfg, u, pid, EndOfFile);
    u := Go(cfg, u, pid, Log(0, false));
  }

  /** A new process on an entry with `end` goes on to open `stdout`. */
  lemma NewOpener(cfg: Config, t: Trace, pid: nat, i: Invocation) returns (u: Trace)
    requires Traced(cfg, t) && pid !in t.world.procs && i.args != [] && i in t.invs
    requires End in FilesAt(t.world, Slot(cfg, i))
    ensures Traced(cfg, u) && SameRules(t, u)
    ensures EntryAt(u.world, Slot(cfg, i)) == EntryAt(t.world, Slot(cfg, i)) && u.world.inodes == t.world.inodes
    ensures u.world.procs == t.world.procs[pid := Proc(i, OpenStdout, "")]
  {
    u := Launch(cfg, t, pid, i);
    u := Go(cfg, u, pid, LookForEnd(false));
  }

  /** A new process on an entry with `end` and `stdout` prints `stdout`. */
  lemma NewReader(cfg: Config, t: Trace, pid: nat, j: Invocation) returns (u: Trace)
    requires Traced(cfg, t) && pid !in t.world.procs && j.args != [] && j in t.invs
    requires var files := FilesAt(t.world, Slot(cfg, j)); End in files && Stdout in files && files[Stdout] in t.world.inodes
    ensures Traced(cfg, u) && SameRules(t, u)
    ensures pid in u.world.procs
    ensures u.world.procs[pid] == Proc(j, Exited(0), t.world.inodes[FilesAt(t.world, Slot(cfg, j))[Stdout]].bytes)
  {
    u := NewOpener(cfg, t, pid, j);
    u := Go(cfg, u, pid, Open(false));
    u := ReaderPrints(cfg, u, pid, FilesAt(t.world, Slot(cfg, j))[Stdout]);
  }

  lemma Blank(cfg: Config, faults: set<Fault>, invs: set<Invocation>) returns (t: Trace)
    ensures Traced(cfg, t) && t == Trace(faults, invs, [], EMPTY)
  {
    t := Trace(faults, invs, [], EMPTY);
  }

  /** An entry written and committed by process 0. */
  lemma Committed(cfg: Config, t: Trace, i: Invocation) returns (u: Trace)
    requires Traced(cfg, t) && t.world == EMPTY && i.args != [] && i in t.invs && Cacheable(cfg, i)
    ensures Traced(cfg, u) && SameRules(t, u)
    ensures EntryAt(u.world, Slot(cfg, i)) == Present(map[Start := 0, Stdout := 1, End := 2])
    ensures u.world.inodes.Keys == {0, 1, 2} && u.world.inodes[1].bytes == cfg.output(i)
    ensures u.world.procs.Keys == {0}
  {
    u := NewWriter(cfg, t, 0, i, 0, 1);
    u := WriterCommits(cfg, u, 0, 2);
    assert FilesAt(u.world, Slot(cfg, i)) == map[Start := 0, Stdout := 1, End := 2];
  }

  /** If two commands that share an entry print different things, the second process prints the wrong one. */
  lemma SharedEntryGoesWrong(cfg: Config, faults: set<Fault>, invs: set<Invocation>, i: Invocation, j: Invocation)
    requires i in invs && j in invs && i.args != [] && j.args != []
    requires Cacheable(cfg, i) && Slot(cfg, i) == Slot(cfg, j) && cfg.output(i) != cfg.output(j)
    ensures !RefinesCommand(cfg, faults, invs)
  {
    var t := Blank(cfg, faults, invs);
    t := Committed(cfg, t, i);
    t := NewReader(cfg, t, 1, j);
    assert !ExitsRight(cfg, t.world, 1);
  }

  /** Output that is not the command's whole output; a command that prints it will not exit with 0. */
  function Junk(cfg: Config, i: Invocation): (s: string)
    ensures s != cfg.output(i)
  {
    cfg.output(i) + "x"
  }

  lemma ReadsUnfinished(cfg: Config, t: Trace, i: Invocation)
    requires Traced(cfg, t) && MisledStat in t.faults && i in t.invs && i.args != [] && 1 !in t.world.procs
    requires EntryAt(t.world, Slot(cfg, i)) == Present(map[Start := 0, Stdout := 1])
    requires 1 in t.world.inodes && t.world.inodes[1].bytes != cfg.output(i)
    ensures !RefinesCommand(cfg, t.faults, t.invs)
  {
    var u := Launch(cfg, t, 1, i);
    u := Go(cfg, u, 1, LookForEnd(true));
    u := Go(cfg, u, 1, Open(false));
    u := ReaderPrints(cfg, u, 1, 1);
    assert !ExitsRight(cfg, u.world, 1);
  }

  /** A stat of `end` that fails for another reason sends the reader to an unfinished `stdout`. */
  lemma MisledStatGoesWrong(cfg: Config, faults: set<Fault>, invs: set<Invocation>, i: Invocation)
    requires MisledStat in faults && i in invs && i.args != [] && Cacheable(cfg, i)
    ensures !RefinesCommand(cfg, faults, invs)
  {
    var t := Blank(cfg, faults, invs);
    t := NewWriter(cfg, t, 0, i, 0, 1);
    t := Prints(cfg, t, 0, Junk(cfg, i));
    ReadsUnfinished(cfg, t, i);
  }

  /** A writer that lost its names to another process commits over the other's unfinished `stdout`. */
  lemma LateCommitGoesWrong(cfg: Config, t: Trace, i: Invocation)
    requires Traced(cfg, t) && i in t.invs && i.args != []
    requires 3 !in t.world.procs && 1 in t.world.procs
    requires t.world.procs[1] == Proc(i, Running(Cache(10, 11, false)), "")
    requires 14 !in t.world.inodes && 11 in t.world.inodes && 13 in t.world.inodes
    requires t.world.inodes[11].bytes == "" && t.world.inodes[13].bytes != cfg.output(i)
    requires EntryAt(t.world, Slot(cfg, i)) == Present(map[Start := 12, Stdout := 13])
    ensures !RefinesCommand(cfg, t.faults, t.invs)
  {
    var u := WriterCommits(cfg, t, 1, 14);
    assert FilesAt(u.world, Slot(cfg, i)) == map[Start := 12, Stdout := 13, End := 14];
    u := NewReader(cfg, u, 3, i);
    assert !ExitsRight(cfg, u.world, 3);
  }

  /** Unlinks the next name of the listing. */
  lemma Unlinks(cfg: Config, t: Trace, pid: nat, rest: seq<File>, after: After) returns (u: Trace)
    requires Traced(cfg, t) && pid in t.world.procs && t.world.procs[pid].pc == Purging(RmNames(rest), after) && rest != []
    ensures Traced(cfg, u) && SameRules(t, u) && u.world.inodes == t.world.inodes
    ensures EntryAt(u.world, SlotOf(cfg, t.world, pid)) == Without(EntryAt(t.world, SlotOf(cfg, t.world, pid)), rest[0])
    ensures u.world.procs == t.world.procs[pid := t.world.procs[pid].(pc := Purging(RmNames(rest[1..]), after))]
  {
    u := Go(cfg, t, pid, Remove([]));
  }

  /** Lists a directory that holds only `start` and unlinks it. */
  lemma UnlinksStart(cfg: Config, t: Trace, pid: nat, after: After) returns (u: Trace)
    requires Traced(cfg, t) && pid in t.world.procs && t.world.procs[pid].pc == Purging(ListDir, after)
    requires FilesAt(t.world, SlotOf(cfg, t.world, pid)).Keys == {Start}
    ensures Traced(cfg, u) && SameRules(t, u) && u.world.inodes == t.world.inodes
    ensures EntryAt(u.world, SlotOf(cfg, t.world, pid)) == Present(map[])
    ensures u.world.procs == t.world.procs[pid := t.world.procs[pid].(pc := Purging(RmNames([]), after))]
  {
    u := Go(cfg, t, pid, Remove([Start]));
    assert [Start][1..] == [];
    u := Unlinks(cfg, u, pid, [Start], after);
  }

  /** The reader's purge empties the entry, whoever owns it by now. */
  lemma ReaderPurges(cfg: Config, t: Trace, pid: nat) returns (u: Trace)
    requires Traced(cfg, t) && pid in t.world.procs && t.world.procs[pid].pc == Purging(RmEnd, ThenPrepare)
    requires var e := EntryAt(t.world, SlotOf(cfg, t.world, pid));
             e.Present? && Start in e.files && Served !in e.files
    ensures Traced(cfg, u) && SameRules(t, u)
    ensures EntryAt(u.world, SlotOf(cfg, t.world, pid)) == Missing && u.world.inodes == t.world.inodes
    ensures u.world.procs == t.world.procs[pid := t.world.procs[pid].(pc := StatStart)]
  {
    u := Go(cfg, t, pid, Remove([]));
    u := Go(cfg, u, pid, Remove([]));
    OnlyStartLeft(FilesAt(u.world, SlotOf(cfg, t.world, pid)));
    u := UnlinksStart(cfg, u, pid, ThenPrepare);
    u := Go(cfg, u, pid, Remove([]));
  }

  /** A reader that purges what it found goes on to open a sink of its own. */
  lemma ReaderRebuilds(cfg: Config, t: Trace, pid: nat, lock: nat, ino: nat) returns (u: Trace)
    requires Traced(cfg, t) && pid in t.world.procs && t.world.procs[pid].pc == Purging(RmEnd, ThenPrepare)
    requires var e := EntryAt(t.world, SlotOf(cfg, t.world, pid)); e.Present? && Start in e.files && Served !in e.files
    requires Cacheable(cfg, t.world.procs[pid].inv) && lock !in t.world.inodes && ino !in t.world.inodes && lock != ino
    ensures Traced(cfg, u) && SameRules(t, u)
    ensures EntryAt(u.world, SlotOf(cfg, t.world, pid)) == Present(map[Start := lock, Stdout := ino])
    ensures u.world.inodes == t.world.inodes[lock := Inode("", pid)][ino := Inode("", pid)]
    ensures u.world.procs == t.world.procs[pid := t.world.procs[pid].(pc := Running(Cache(lock, ino, false)))]
  {
    u := ReaderPurges(cfg, t, pid);
    u := WriterOpens(cfg, u, pid, lock, ino);
  }

  lemma SlowerPurgerGoesWrong(cfg: Config, t: Trace, i: Invocation)
    requires Traced(cfg, t) && i in t.invs && i.args != [] && Cacheable(cfg, i)
    requires t.world.procs.Keys == {0, 1, 2} && t.world.inodes.Keys == {0, 1, 2, 10, 11}
    requires t.world.procs[1] == Proc(i, Running(Cache(10, 11, false)), "") && t.world.inodes[11].bytes == ""
    requires t.world.procs[2] == Proc(i, Purging(RmEnd, ThenPrepare), "")
    requires EntryAt(t.world, Slot(cfg, i)) == Present(map[Start := 10, Stdout := 11])
    ensures !RefinesCommand(cfg, t.faults, t.invs)
  {
    var u := ReaderRebuilds(cfg, t, 2, 12, 13);
    u := Prints(cfg, u, 2, Junk(cfg, i));
    LateCommitGoesWrong(cfg, u, i);
  }

  /** Two readers that find `stdout` broken purge at the same time: the slower one destroys the other's new entry. */
  lemma TwoPurgersGoWrong(cfg: Config, t: Trace, i: Invocation)
    requires Traced(cfg, t) && i in t.invs && i.args != [] && Cacheable(cfg, i)
    requires t.world.procs.Keys == {0, 1, 2} && t.world.inodes.Keys == {0, 1, 2}
    requires t.world.procs[1] == t.world.procs[2] == Proc(i, Purging(RmEnd, ThenPrepare), "")
    requires EntryAt(t.world, Slot(cfg, i)).Present?
    requires Start in FilesAt(t.world, Slot(cfg, i)) && Served !in FilesAt(t.world, Slot(cfg, i))
    ensures !RefinesCommand(cfg, t.faults, t.invs)
  {
    var u := ReaderRebuilds(cfg, t, 1, 10, 11);
    SlowerPurgerGoesWrong(cfg, u, i);
  }

  lemma RefusedOpenGoesWrong(cfg: Config, faults: set<Fault>, invs: set<Invocation>, i: Invocation)
    requires RefusedOpen in faults && i in invs && i.args != [] && Cacheable(cfg, i)
    ensures !RefinesCommand(cfg, faults, invs)
  {
    var t := Blank(cfg, faults, invs);
    t := Committed(cfg, t, i);
    t := NewOpener(cfg, t, 1, i);
    t := Go(cfg, t, 1, Open(true));
    t := NewOpener(cfg, t, 2, i);
    t := Go(cfg, t, 2, Open(true));
    TwoPurgersGoWrong(cfg, t, i);
  }

  lemma StdoutRemovedGoesWrong(cfg: Config, faults: set<Fault>, invs: set<Invocation>, i: Invocation)
    requires StdoutRemoved in faults && i in invs && i.args != [] && Cacheable(cfg, i)
    ensures !RefinesCommand(cfg, faults, invs)
  {
    var t := Blank(cfg, faults, invs);
    t := Committed(cfg, t, i);
    t := Outside(cfg, t, Slot(cfg, i), Stdout);
    t := NewOpener(cfg, t, 1, i);
    t := Go(cfg, t, 1, Open(false));
    t := NewOpener(cfg, t, 2, i);
    t := Go(cfg, t, 2, Open(false));
    TwoPurgersGoWrong(cfg, t, i);
  }

  /** A failing writer up to the listing of its directory. */
  lemma WriterFails(cfg: Config, t: Trace, pid: nat) returns (u: Trace)
    requires Traced(cfg, t) && pid in t.world.procs
    requires t.world.procs[pid].pc.Running? && t.world.procs[pid].pc.sink.Cache?
    requires var e := EntryAt(t.world, SlotOf(cfg, t.world, pid)); e.Present? && End !in e.files
    ensures Traced(cfg, u) && SameRules(t, u) && u.world.inodes == t.world.inodes
    ensures var slot := SlotOf(cfg, t.world, pid);
            EntryAt(u.world, slot) == Present(FilesAt(t.world, slot) - {Stdout})
    ensures var p := t.world.procs[pid];
            u.world.procs == t.world.procs[pid := p.(pc := Purging(ListDir, ThenExit(1, p.pc.sink.lock)))]
  {
    u := Go(cfg, t, pid, Finish(1));
    u := Go(cfg, u, pid, Remove([]));
    assert FilesAt(u.world, SlotOf(cfg, t.world, pid)) == FilesAt(t.world, SlotOf(cfg, t.world, pid));
    u := Go(cfg, u, pid, Remove([]));
  }

  /** A new process that finds neither `end` nor `start` takes the lock. */
  lemma NewLock(cfg: Config, t: Trace, pid: nat, i: Invocation, lock: nat) returns (u: Trace)
    requires Traced(cfg, t) && pid !in t.world.procs && i.args != [] && i in t.invs && Cacheable(cfg, i)
    requires End !in FilesAt(t.world, Slot(cfg, i)) && Start !in FilesAt(t.world, Slot(cfg, i)) && lock !in t.world.inodes
    ensures Traced(cfg, u) && SameRules(t, u)
    ensures EntryAt(u.world, Slot(cfg, i)) == Present(FilesAt(t.world, Slot(cfg, i))[Start := lock])
    ensures u.world.inodes == t.world.inodes[lock := Inode("", pid)]
    ensures u.world.procs == t.world.procs[pid := Proc(i, CreateStdout(lock), "")]
  {
    u := NewProcess(cfg, t, pid, i);
    u := TakesLock(cfg, u, pid, lock);
  }

  lemma UnlinksBoth(cfg: Config, t: Trace, pid: nat, after: After) returns (u: Trace)
    requires Traced(cfg, t) && pid in t.world.procs && t.world.procs[pid].pc == Purging(RmNames([Start, Stdout]), after)
    requires FilesAt(t.world, SlotOf(cfg, t.world, pid)).Keys == {Start, Stdout}
    ensures Traced(cfg, u) && SameRules(t, u) && FilesAt(u.world, SlotOf(cfg, t.world, pid)) == map[]
    ensures u.world.inodes == t.world.inodes
    ensures u.world.procs == t.world.procs[pid := t.world.procs[pid].(pc := Purging(RmNames([]), after))]
  {
    u := Unlinks(cfg, t, pid, [Start, Stdout], after);
    assert [Start, Stdout][1..] == [Stdout];
    u := Unlinks(cfg, u, pid, [Stdout], after);
    assert [Stdout][1..] == [];
  }

  lemma OtherWriterPurged(cfg: Config, t: Trace, i: Invocation) returns (u: Trace)
    requires Traced(cfg, t) && 0 in t.world.procs && t.world.procs[0] == Proc(i, Purging(ListDir, ThenExit(1, 0)), "")
    requires EntryAt(t.world, Slot(cfg, i)) == Present(map[Start := 10, Stdout := 11])
    ensures Traced(cfg, u) && SameRules(t, u) && FilesAt(u.world, Slot(cfg, i)) == map[]
    ensures u.world.inodes == t.world.inodes
    ensures u.world.procs == t.world.procs[0 := Proc(i, Purging(RmNames([]), ThenExit(1, 0)), "")]
  {
    assert FilesAt(t.world, Slot(cfg, i)).Keys == {Start, Stdout};
    u := Go(cfg, t, 0, Remove([Start, Stdout]));
    u := UnlinksBoth(cfg, u, 0, ThenExit(1, 0));
  }

  lemma StartRemovedEnds(cfg: Config, t: Trace, i: Invocation)
    requires Traced(cfg, t) && i in t.invs && i.args != [] && Cacheable(cfg, i)
    requires t.world.procs.Keys == {0, 1} && t.world.inodes.Keys == {0, 1, 10, 11}
    requires t.world.procs[0] == Proc(i, Purging(ListDir, ThenExit(1, 0)), "")
    requires t.world.procs[1] == Proc(i, Running(Cache(10, 11, false)), "") && t.world.inodes[11].bytes == ""
    requires EntryAt(t.world, Slot(cfg, i)) == Present(map[Start := 10, Stdout := 11])
    ensures !RefinesCommand(cfg, t.faults, t.invs)
  {
    var u := OtherWriterPurged(cfg, t, i);
    u := NewWriter(cfg, u, 2, i, 12, 13);
    u := Prints(cfg, u, 2, Junk(cfg, i));
    LateCommitGoesWrong(cfg, u, i);
  }

  lemma StartRemovedGoesOn(cfg: Config, t: Trace, i: Invocation)
    requires Traced(cfg, t) && i in t.invs && i.args != [] && Cacheable(cfg, i)
    requires t.world.procs == map[0 := Proc(i, Running(Cache(0, 1, false)), ""), 1 := Proc(i, CreateStdout(10), "")]
    requires t.world.inodes.Keys == {0, 1, 10}
    requires EntryAt(t.world, Slot(cfg, i)) == Present(map[Start := 10, Stdout := 1])
    ensures !RefinesCommand(cfg, t.faults, t.invs)
  {
    var slot := Slot(cfg, i);
    var u := WriterFails(cfg, t, 0);
    assert FilesAt(u.world, slot) == map[Start := 10];
    u := Go(cfg, u, 1, OpenSink(11, true));
    assert FilesAt(u.world, slot) == map[Start := 10, Stdout := 11];
    StartRemovedEnds(cfg, u, i);
  }

  /** With `start` gone, a second writer locks the entry that the first is about to purge. */
  lemma StartRemovedGoesWrong(cfg: Config, faults: set<Fault>, invs: set<Invocation>, i: Invocation)
    requires StartRemoved in faults && i in invs && i.args != [] && Cacheable(cfg, i)
    ensures !RefinesCommand(cfg, faults, invs)
  {
    var slot := Slot(cfg, i);
    var t := Blank(cfg, faults, invs);
    t := NewWriter(cfg, t, 0, i, 0, 1);
    t := Outside(cfg, t, slot, Start);
    assert FilesAt(t.world, slot) == map[Stdout := 1];
    t := NewLock(cfg, t, 1, i, 10);
    assert FilesAt(t.world, slot) == map[Start := 10, Stdout := 1];
    StartRemovedGoesOn(cfg, t, i);
  }

  lemma LosesAndCommits(cfg: Config, t: Trace, i: Invocation)
    requires Traced(cfg, t) && WriteBackLost in t.faults && i in t.invs && i.args != [] && cfg.output(i) != ""
    requires t.world.procs == map[0 := Proc(i, Committing(0, 1), cfg.output(i))]
    requires t.world.inodes.Keys == {0, 1} && t.world.inodes[1].bytes == cfg.output(i)
    requires EntryAt(t.world, Slot(cfg, i)) == Present(map[Start := 0, Stdout := 1])
    ensures !RefinesCommand(cfg, t.faults, t.invs)
  {
    var u := Go(cfg, t, 0, CloseLoses(0));
    u := Go(cfg, u, 0, Commit(2, true));
    assert FilesAt(u.world, Slot(cfg, i)) == map[Start := 0, Stdout := 1, End := 2];
    u := NewReader(cfg, u, 1, i);
    assert !ExitsRight(cfg, u.world, 1);
  }

  /** A writer that does not look at the error of closing `stdout` announces an incomplete one. */
  lemma WriteBackLostGoesWrong(cfg: Config, faults: set<Fault>, invs: set<Invocation>, i: Invocation)
    requires WriteBackLost in faults && i in invs && i.args != [] && Cacheable(cfg, i) && cfg.output(i) != ""
    ensures !RefinesCommand(cfg, faults, invs)
  {
    var t := Blank(cfg, faults, invs);
    t := NewWriter(cfg, t, 0, i, 0, 1);
    t := WriterFinishes(cfg, t, 0);
    LosesAndCommits(cfg, t, i);
  }

  lemma FaultGoesWrong(cfg: Config, f: Fault, faults: set<Fault>, invs: set<Invocation>, i: Invocation)
    requires f in faults && Startable(invs, i) && Cacheable(cfg, i) && (f.WriteBackLost? ==> cfg.output(i) != "")
    ensures !RefinesCommand(cfg, faults, invs)
  {
    match f {
      case MisledStat => MisledStatGoesWrong(cfg, faults, invs, i);
      case RefusedOpen => RefusedOpenGoesWrong(cfg, faults, invs, i);
      case StartRemoved => StartRemovedGoesWrong(cfg, faults, invs, i);
      case StdoutRemoved => StdoutRemovedGoesWrong(cfg, faults, invs, i);
      case WriteBackLost => WriteBackLostGoesWrong(cfg, faults, invs, i);
    }
  }

  lemma HarmfulGoesWrong(cfg: Config, faults: set<Fault>, invs: set<Invocation>)
    requires !Harmless(cfg, faults, invs)
    ensures !RefinesCommand(cfg, faults, invs)
  {
    var i :| Startable(invs, i) && Cacheable(cfg, i) && faults != {} && !(faults == {WriteBackLost} && cfg.output(i) == "");
    if f :| f in faults && !f.WriteBackLost? {
      FaultGoesWrong(cfg, f, faults, invs, i);
    } else {
      assert WriteBackLost in faults && faults == {WriteBackLost};
      FaultGoesWrong(cfg, WriteBackLost, faults, invs, i);
    }
  }

  /** Exactly when is the cached hook as good as the command? When the keys separate what has to be separated
      and the faults of the environment have nothing to spoil. */
  lemma RefinementExactly(cfg: Config, faults: set<Fault>, invs: set<Invocation>)
    ensures RefinesCommand(cfg, faults, invs) <==> KeysSeparate(cfg, invs) && Harmless(cfg, faults, invs)
  {
    if !Harmless(cfg, faults, invs) {
      HarmfulGoesWrong(cfg, faults, invs);
    } else if KeysSeparate(cfg, invs) {
      SeparateKeysSuffice(cfg, faults, invs);
    } else {
      var i, j :| Startable(invs, i) && Startable(invs, j) && Cacheable(cfg, i) && Slot(cfg, i) == Slot(cfg, j)
                  && cfg.output(i) != cfg.output(j);
      SharedEntryGoesWrong(cfg, faults, invs, i, j);
    }
  }

  /** The lock is given up by unlinking `start`, not at the end of the purge:
      a writer may be at work while an earlier one still has to remove the directory. */
  lemma PurgeTailOverlaps(cfg: Config, i: Invocation) returns (t: Trace)
    requires i.args != [] && Cacheable(cfg, i)
    ensures Traced(cfg, t) && t.faults == {} && {0, 1} <= t.world.procs.Keys
    ensures t.world.procs[0].pc == Purging(RmNames([]), ThenExit(1, 0))
    ensures t.world.procs[1].pc == Running(Cache(10, 11, false)) && SlotOf(cfg, t.world, 0) == SlotOf(cfg, t.world, 1)
  {
    t := Blank(cfg, {}, {i});
    t := NewWriter(cfg, t, 0, i, 0, 1);
    t := WriterFails(cfg, t, 0);
    assert FilesAt(t.world, Slot(cfg, i)) == map[Start := 0];
    t := UnlinksStart(cfg, t, 0, ThenExit(1, 0));
    t := NewWriter(cfg, t, 1, i, 10, 11);
  }
}
