/** The hook's `main` as the program it is, run alone, whichever of its file operations fail.
    Every call it makes is a step of the machine in HookCache. */
module HookProcess {
  import opened Options
  import opened HookKey
  import opened HookCache
  import opened HookInvariant

  const COPY_BUFFER := 32 * 1024

  function Concat(chunks: seq<string>): string {
    if chunks == [] then "" else Concat(chunks[..|chunks| - 1]) + chunks[|chunks| - 1]
  }

  lemma ConcatNext(chunks: seq<string>, k: nat)
    requires k < |chunks|
    ensures Concat(chunks[..k + 1]) == Concat(chunks[..k]) + chunks[k]
  {
    assert chunks[..k + 1][..k] == chunks[..k];
  }

  /** What a failing write of the command does: at which piece, and how much of it still gets out. */
  datatype WriteFailure = WriteFailure(at: nat, printed: nat, stored: nat)

  /** What the operating system lets fail in one run. */
  datatype Luck = Luck(
    endMisled: bool,
    refused: bool,
    copyFails: Option<nat>,
    logs: bool,
    startMisled: bool,
    mkdir: MkdirOutcome,
    locks: bool,
    opens: bool,
    writeFails: Option<WriteFailure>,
    lost: Option<nat>,
    marks: bool)

  const NOTHING_FAILS: Luck := Luck(false, false, None, true, false, Made, true, true, None, None, true)

  /** The program finds something to serve. */
  predicate Serves(had: set<File>, luck: Luck) {
    (luck.endMisled || End in had) && !luck.refused && Stdout in had
  }

  /** A program that does not serve purges whatever seems to be marked complete. */
  predicate Purges(had: set<File>, luck: Luck) {
    (luck.endMisled || End in had) && !Serves(had, luck)
  }

  /** The program gets the lock of an entry with these names; `there` tells whether the directory exists. */
  predicate Locks(had: set<File>, there: bool, cacheable: bool, luck: Luck) {
    && cacheable && !luck.startMisled && Start !in had
    && (luck.mkdir.Made? || (luck.mkdir.ErrorIgnored? && there))
    && luck.locks
  }

  /** The program gets a sink. */
  predicate Obtains(had: set<File>, there: bool, cacheable: bool, luck: Luck) {
    Locks(had, there, cacheable, luck) && luck.opens && Stdout !in had
  }

  /** The names left by a run that has found nothing to serve. */
  function MissNames(had: set<File>, there: bool, cacheable: bool, luck: Luck, code: int): set<File> {
    if !Locks(had, there, cacheable, luck) then had
    else if !Obtains(had, there, cacheable, luck) then had + {Start}
    else if code != 0 then {}
    else had + {Start, Stdout} + if luck.marks then {End} else {}
  }

  /** The names that one run, alone, leaves in an entry that had the names `had`; `code` is its exit code. */
  function NamesAfter(had: set<File>, there: bool, cacheable: bool, luck: Luck, code: int): set<File> {
    if Serves(had, luck) then had + if luck.logs then {Served} else {}
    else if Purges(had, luck) then MissNames({}, false, cacheable, luck, code)
    else MissNames(had, there, cacheable, luck, code)
  }

  predicate Hit(had: set<File>) {
    End in had && Stdout in had
  }

  /** Whatever fails, a run alone never leaves `end` beside a missing `stdout`; and it leaves a complete entry exactly
      if it served one, or got a sink, succeeded and could mark it. In particular an entry with `end` but no `stdout`
      is rebuilt by the next run in which nothing fails. */
  lemma RepairsExactly(had: set<File>, there: bool, cacheable: bool, luck: Luck, code: int)
    ensures var left := NamesAfter(had, there, cacheable, luck, code);
            var purged := Purges(had, luck);
            && (End in left ==> Stdout in left)
            && (Hit(left) <==>
                  if Serves(had, luck) then End in had
                  else Obtains(if purged then {} else had, there && !purged, cacheable, luck) && code == 0 && luck.marks)
    ensures End in had && Stdout !in had && cacheable ==> Hit(NamesAfter(had, there, cacheable, NOTHING_FAILS, 0))
  {
  }

  function Cut(s: string, n: nat): string {
    if n < |s| then s[..n] else s
  }

  predicate Breaks(chunks: seq<string>, cached: bool, luck: Luck) {
    cached && luck.writeFails.Some? && luck.writeFails.value.at < |chunks|
  }

  /** What reaches standard output of what the command writes. */
  function Printed(chunks: seq<string>, cached: bool, luck: Luck): string {
    if Breaks(chunks, cached, luck) then
      var f := luck.writeFails.value;
      Concat(chunks[..f.at]) + Cut(chunks[f.at], f.printed)
    else Concat(chunks)
  }

  /** What reaches the sink. */
  function Stored(chunks: seq<string>, luck: Luck): string {
    if Breaks(chunks, true, luck) then
      var f := luck.writeFails.value;
      Concat(chunks[..f.at]) + Cut(chunks[f.at], f.stored)
    else Concat(chunks)
  }

  /** What is left in the sink after closing it. */
  function Saved(chunks: seq<string>, luck: Luck): string {
    if luck.lost.Some? then Cut(Stored(chunks, luck), luck.lost.value) else Stored(chunks, luck)
  }

  /** A write that fails turns an exit with 0 into an exit with 1. */
  function ExitCode(code: int, chunks: seq<string>, cached: bool, luck: Luck): int {
    if code == 0 && Breaks(chunks, cached, luck) then 1 else code
  }

  /** The files of an entry after an attempt to prepare it, with the inode numbers `ino` and `ino + 1` to give away. */
  function Prepared(e: Entry, cacheable: bool, luck: Luck, ino: nat): map<File, nat> {
    var files := Files(e);
    if !Locks(files.Keys, e.Present?, cacheable, luck) then files
    else if !Obtains(files.Keys, e.Present?, cacheable, luck) then files[Start := ino]
    else files[Start := ino][Stdout := ino + 1]
  }

  /** Preparing, running and concluding leave the names that MissNames says. */
  lemma PreparedThenConcluded(e: Entry, cacheable: bool, luck: Luck, code: int, ino: nat, left: map<File, nat>)
    requires End !in Files(e)
    requires var files := Prepared(e, cacheable, luck, ino);
             left == if !Obtains(Files(e).Keys, e.Present?, cacheable, luck) then files
                     else if code != 0 then map[]
                     else if luck.marks then files[End := ino + 2] else files
    ensures left.Keys == MissNames(Files(e).Keys, e.Present?, cacheable, luck, code)
    ensures Hit(left.Keys) ==> Obtains(Files(e).Keys, e.Present?, cacheable, luck) && code == 0 && left[Stdout] == ino + 1
  {
  }

  /** One run alone, from an entry `e` and the inodes `before` to the files `left` and the inodes `after`:
      the names left, the exit code, what is printed, and what a complete entry holds. */
  predicate Ran(cfg: Config, e: Entry, before: map<nat, Inode>, inv: Invocation, chunks: seq<string>, code: int, luck: Luck,
                left: map<File, nat>, after: map<nat, Inode>, proc: Proc, exitCode: int)
  {
    var had := Files(e);
    var cacheable := Cacheable(cfg, inv);
    && left.Keys == NamesAfter(had.Keys, e.Present?, cacheable, luck, exitCode)
    && proc.inv == inv && proc.pc == Exited(exitCode)
    && if Serves(had.Keys, luck) then
         && left[Stdout] == had[Stdout] && had[Stdout] in before
         && var bytes := before[had[Stdout]].bytes;
            && exitCode == (if luck.copyFails.Some? then 1 else 0)
            && proc.out == if luck.copyFails.Some? then Cut(bytes, luck.copyFails.value) else bytes
       else
         var purged := Purges(had.Keys, luck);
         var cached := Obtains(if purged then {} else had.Keys, e.Present? && !purged, cacheable, luck);
         && exitCode == ExitCode(code, chunks, cached, luck)
         && proc.out == Printed(chunks, cached, luck)
         && (Hit(left.Keys) ==> left[Stdout] in after && after[left[Stdout]].bytes == Saved(chunks, luck))
  }

  lemma RanServed(cfg: Config, e: Entry, before: map<nat, Inode>, inv: Invocation, chunks: seq<string>, code: int, luck: Luck,
                  left: map<File, nat>, after: map<nat, Inode>, proc: Proc, exitCode: int, ino: nat)
    requires Serves(Files(e).Keys, luck) && Files(e)[Stdout] in before && proc.inv == inv && proc.pc == Exited(exitCode)
    requires left == if luck.logs && Served !in Files(e) then Files(e)[Served := ino] else Files(e)
    requires exitCode == if luck.copyFails.Some? then 1 else 0
    requires var bytes := before[Files(e)[Stdout]].bytes;
             proc.out == if luck.copyFails.Some? then Cut(bytes, luck.copyFails.value) else bytes
    ensures Ran(cfg, e, before, inv, chunks, code, luck, left, after, proc, exitCode)
  {
  }

  lemma RanMissed(cfg: Config, e: Entry, before: map<nat, Inode>, inv: Invocation, chunks: seq<string>, code: int, luck: Luck,
                  left: map<File, nat>, after: map<nat, Inode>, proc: Proc, exitCode: int, found: Entry)
    requires !Serves(Files(e).Keys, luck) && proc.inv == inv && proc.pc == Exited(exitCode)
    requires found == if Purges(Files(e).Keys, luck) then Missing else e
    requires left.Keys == MissNames(Files(found).Keys, found.Present?, Cacheable(cfg, inv), luck, exitCode)
    requires var cached := Obtains(Files(found).Keys, found.Present?, Cacheable(cfg, inv), luck);
             exitCode == ExitCode(code, chunks, cached, luck) && proc.out == Printed(chunks, cached, luck)
    requires Hit(left.Keys) ==> left[Stdout] in after && after[left[Stdout]].bytes == Saved(chunks, luck)
    ensures Ran(cfg, e, before, inv, chunks, code, luck, left, after, proc, exitCode)
  {
    assert Files(Missing).Keys == {};
  }

  /** What the limit on standard input decides. */
  lemma LimitDecides(cfg: Config, e: Entry, before: map<nat, Inode>, inv: Invocation, chunks: seq<string>, code: int, luck: Luck,
                     left: map<File, nat>, after: map<nat, Inode>, proc: Proc, exitCode: int)
    requires Ran(cfg, e, before, inv, chunks, code, luck, left, after, proc, exitCode)
    ensures cfg.stdinMax != 0 && |inv.stdin| > cfg.stdinMax ==> left.Keys <= Files(e).Keys + {Served}
    ensures (cfg.stdinMax == 0 || |inv.stdin| <= cfg.stdinMax) && Files(e) == map[] && luck == NOTHING_FAILS && exitCode == 0
            ==> left.Keys == {Start, Stdout, End}
  {
  }

  /** When nothing fails, a run alone does this to an entry that holds the names `had`: it adds `served` to a complete one
      and prints that; otherwise it runs the command, and then an entry that was marked without a payload counts as
      empty; one with `start`, or with too large an input, stays as it is; one with a stray `stdout` gets locked; and an
      empty one becomes complete if the command succeeds, and is gone if it fails. */
  lemma UndisturbedExactly(cfg: Config, e: Entry, before: map<nat, Inode>, inv: Invocation, chunks: seq<string>, code: int,
                           left: map<File, nat>, after: map<nat, Inode>, proc: Proc, exitCode: int)
    requires Ran(cfg, e, before, inv, chunks, code, NOTHING_FAILS, left, after, proc, exitCode)
    ensures var had := Files(e).Keys;
            if End in had && Stdout in had then
              && left.Keys == had + {Served} && exitCode == 0
              && Files(e)[Stdout] in before && proc.out == before[Files(e)[Stdout]].bytes
            else
              var found := if End in had then {} else had;
              && exitCode == code && proc.out == Concat(chunks)
              && left.Keys == if (cfg.stdinMax != 0 && |inv.stdin| > cfg.stdinMax) || Start in found then found
                              else if Stdout in found then found + {Start}
                              else if code == 0 then found + {Start, Stdout, End} else {}
  {
  }

  /** Inode numbers from `n` on are free. */
  predicate Below(inodes: map<nat, Inode>, n: nat) {
    forall k :: k in inodes ==> k < n
  }

  predicate Kept(before: map<nat, Inode>, after: map<nat, Inode>) {
    forall k :: k in before ==> k in after && after[k] == before[k]
  }

  class HookHost {
    const cfg: Config
    var world: World
    ghost const origin: World
    /** The order in which the kernel lists a directory. */
    const readdir: set<File> -> seq<File>
    /** Every step taken since `origin`. */
    ghost var log: seq<Event>

    ghost predicate Valid()
      reads this
    {
      Run(cfg, origin, log) == Some(world) && forall names :: Lists(readdir(names), names)
    }

    constructor (cfg: Config, world: World, readdir: set<File> -> seq<File>)
      requires forall names :: Lists(readdir(names), names)
      ensures Valid() && this.cfg == cfg && this.world == world && this.origin == world && log == []
    {
      this.cfg := cfg;
      this.readdir := readdir;
      this.world := world;
      this.origin := world;
      this.log := [];
    }

    /** One system call of process `pid`. */
    method Call(pid: nat, a: Action)
      requires Valid() && pid in world.procs && Act(cfg, pid, ViewOf(cfg, world, pid), a).Some?
      modifies this
      ensures Valid() && log == old(log) + [Do(pid, a)]
      ensures var v := Act(cfg, pid, ViewOf(cfg, old(world), pid), a).value;
              && EntryAt(world, SlotOf(cfg, old(world), pid)) == v.entry
              && world.inodes == v.inodes
              && world.procs == old(world).procs[pid := v.proc]
              && forall s :: s != SlotOf(cfg, old(world), pid) ==> EntryAt(world, s) == EntryAt(old(world), s)
    {
      RunAppend(cfg, origin, log, Do(pid, a));
      world := Step(cfg, world, Do(pid, a)).value;
      log := log + [Do(pid, a)];
    }

    ghost predicate At(pid: nat, pc: Pc)
      reads this
    {
      pid in world.procs && world.procs[pid].pc == pc
    }

    /** What has changed since `old` is the process, its entry and (at most) more inodes. */
    twostate predicate OnlyMine(pid: nat, slot: string)
      reads this
    {
      && pid in world.procs
      && world.procs.Keys == old(world).procs.Keys + {pid}
      && (forall q :: q in old(world).procs && q != pid ==> world.procs[q] == old(world).procs[q])
      && (forall s :: s != slot ==> EntryAt(world, s) == EntryAt(old(world), s))
      && old(log) <= log
    }

    /** One unlink, listing or rmdir of a purge. */
    method PurgeOnce(pid: nat, order: seq<File>)
      requires Valid() && pid in world.procs && world.procs[pid].pc.Purging?
      requires RemoveStep(ViewOf(cfg, world, pid), order).Some?
      modifies this
      ensures Valid() && log == old(log) + [Do(pid, Remove(order))]
      ensures var v := RemoveStep(ViewOf(cfg, old(world), pid), order).value;
              && EntryAt(world, SlotOf(cfg, old(world), pid)) == v.entry
              && world.inodes == v.inodes
              && world.procs == old(world).procs[pid := v.proc]
              && forall s :: s != SlotOf(cfg, old(world), pid) ==> EntryAt(world, s) == EntryAt(old(world), s)
    {
      Call(pid, Remove(order));
    }

    /** Unlinks the listed names one by one, then removes the directory. */
    method RemoveNames(pid: nat, names: seq<File>)
      requires Valid() && pid in world.procs && world.procs[pid].pc.Purging?
      requires world.procs[pid].pc.stage == RmNames(names)
      requires FilesAt(world, SlotOf(cfg, world, pid)).Keys <= set f | f in names
      modifies this
      ensures Valid() && OnlyMine(pid, SlotOf(cfg, old(world), pid))
      ensures world.procs[pid] == old(world).procs[pid].(pc := AfterPurge(old(world).procs[pid].pc.after))
      ensures EntryAt(world, SlotOf(cfg, old(world), pid)) == Missing && world.inodes == old(world).inodes
    {
      ghost var slot := SlotOf(cfg, world, pid);
      ghost var after := world.procs[pid].pc.after;
      var k := 0;
      assert names[0..] == names;
      while k < |names|
        invariant Valid() && 0 <= k <= |names|
        invariant OnlyMine(pid, slot)
        invariant world.procs[pid] == old(world).procs[pid].(pc := Purging(RmNames(names[k..]), after))
        invariant world.inodes == old(world).inodes
        invariant forall f :: f in FilesAt(world, slot) ==> f in names[k..]
      {
        assert names[k..] == [names[k]] + names[k + 1..];
        ghost var before := FilesAt(world, slot);
        PurgeOnce(pid, []);
        assert FilesAt(world, slot) == before - {names[k]};
        forall f | f in FilesAt(world, slot) ensures f in names[k + 1..] {
          assert f in [names[k]] + names[k + 1..];
        }
        k := k + 1;
      }
      assert FilesAt(world, slot) == map[];
      PurgeOnce(pid, []);
    }

    /** `os.RemoveAll` of the directory: list it, unlink every name, remove it if empty. */
    method RemoveTree(pid: nat)
      requires Valid() && pid in world.procs && world.procs[pid].pc.Purging? && world.procs[pid].pc.stage == ListDir
      modifies this
      ensures Valid() && OnlyMine(pid, SlotOf(cfg, old(world), pid))
      ensures world.procs[pid] == old(world).procs[pid].(pc := AfterPurge(old(world).procs[pid].pc.after))
      ensures EntryAt(world, SlotOf(cfg, old(world), pid)) == Missing && world.inodes == old(world).inodes
    {
      var names := readdir(FilesAt(world, SlotOf(cfg, world, pid)).Keys);
      assert forall f :: f in FilesAt(world, SlotOf(cfg, world, pid)) ==> f in multiset(names);
      PurgeOnce(pid, names);
      RemoveNames(pid, names);
    }

    /** `end` first, then `stdout`, then everything else. */
    method PurgeCacheDir(pid: nat)
      requires Valid() && pid in world.procs && world.procs[pid].pc.Purging? && world.procs[pid].pc.stage == RmEnd
      modifies this
      ensures Valid() && OnlyMine(pid, SlotOf(cfg, old(world), pid))
      ensures world.procs[pid] == old(world).procs[pid].(pc := AfterPurge(old(world).procs[pid].pc.after))
      ensures EntryAt(world, SlotOf(cfg, old(world), pid)) == Missing && world.inodes == old(world).inodes
    {
      PurgeOnce(pid, []);
      PurgeOnce(pid, []);
      RemoveTree(pid);
    }

    /** Looks whether caching is allowed and the entry is free. */
    method CheckStart(pid: nat, misled: bool)
      requires Valid() && At(pid, StatStart)
      modifies this
      ensures Valid() && OnlyMine(pid, SlotOf(cfg, old(world), pid)) && world.inodes == old(world).inodes
      ensures EntryAt(world, SlotOf(cfg, old(world), pid)) == EntryAt(old(world), SlotOf(cfg, old(world), pid))
      ensures var p := old(world).procs[pid];
              var free := Cacheable(cfg, p.inv) && !misled && Start !in FilesAt(old(world), SlotOf(cfg, old(world), pid));
              world.procs[pid] == p.(pc := if free then MakeDir else Running(NoCache))
    {
      Call(pid, LookForStart(misled));
    }

    method MakeDirectory(pid: nat, outcome: MkdirOutcome)
      requires Valid() && At(pid, MakeDir)
      modifies this
      ensures Valid() && OnlyMine(pid, SlotOf(cfg, old(world), pid)) && world.inodes == old(world).inodes
      ensures var e := EntryAt(old(world), SlotOf(cfg, old(world), pid));
              EntryAt(world, SlotOf(cfg, old(world), pid)) == if outcome.Made? then Present(Files(e)) else e
      ensures world.procs[pid] == old(world).procs[pid].(pc := if outcome.ErrorExists? then Running(NoCache) else CreateStart)
    {
      Call(pid, MkdirAll(outcome));
    }

    /** Creates `start` exclusively. */
    method TakeLock(pid: nat, ino: nat, ok: bool)
      requires Valid() && At(pid, CreateStart) && ino !in world.inodes
      modifies this
      ensures Valid() && OnlyMine(pid, SlotOf(cfg, old(world), pid))
      ensures var e := EntryAt(old(world), SlotOf(cfg, old(world), pid));
              if ok && e.Present? && Start !in e.files then
                && EntryAt(world, SlotOf(cfg, old(world), pid)) == Present(e.files[Start := ino])
                && world.inodes == old(world).inodes[ino := Inode("", pid)]
                && world.procs[pid] == old(world).procs[pid].(pc := CreateStdout(ino))
              else
                && EntryAt(world, SlotOf(cfg, old(world), pid)) == e && world.inodes == old(world).inodes
                && world.procs[pid] == old(world).procs[pid].(pc := Running(NoCache))
    {
      Call(pid, Lock(ino, ok));
    }

    /** Creates `stdout` exclusively. */
    method OpenStdoutFile(pid: nat, lock: nat, ino: nat, ok: bool)
      requires Valid() && At(pid, CreateStdout(lock)) && ino !in world.inodes
      modifies this
      ensures Valid() && OnlyMine(pid, SlotOf(cfg, old(world), pid))
      ensures var e := EntryAt(old(world), SlotOf(cfg, old(world), pid));
              if ok && e.Present? && Stdout !in e.files then
                && EntryAt(world, SlotOf(cfg, old(world), pid)) == Present(e.files[Stdout := ino])
                && world.inodes == old(world).inodes[ino := Inode("", pid)]
                && world.procs[pid] == old(world).procs[pid].(pc := Running(Cache(lock, ino, false)))
              else
                && EntryAt(world, SlotOf(cfg, old(world), pid)) == e && world.inodes == old(world).inodes
                && world.procs[pid] == old(world).procs[pid].(pc := Running(NoCache))
    {
      Call(pid, OpenSink(ino, ok));
    }

    /** Creates `start`, then `stdout`. */
    method LockAndOpen(pid: nat, luck: Luck, ino: nat)
      requires Valid() && At(pid, CreateStart) && Start !in FilesAt(world, SlotOf(cfg, world, pid))
      requires Below(world.inodes, ino)
      modifies this
      ensures Valid() && OnlyMine(pid, SlotOf(cfg, old(world), pid))
      ensures var e := EntryAt(old(world), SlotOf(cfg, old(world), pid));
              var files := Files(e);
              var mine := old(world).inodes[ino := Inode("", pid)];
              if !(luck.locks && e.Present?) then
                && EntryAt(world, SlotOf(cfg, old(world), pid)) == e && world.inodes == old(world).inodes
                && world.procs[pid] == old(world).procs[pid].(pc := Running(NoCache))
              else if !(luck.opens && Stdout !in files) then
                && EntryAt(world, SlotOf(cfg, old(world), pid)) == Present(files[Start := ino]) && world.inodes == mine
                && world.procs[pid] == old(world).procs[pid].(pc := Running(NoCache))
              else
                && EntryAt(world, SlotOf(cfg, old(world), pid)) == Present(files[Start := ino][Stdout := ino + 1])
                && world.inodes == mine[ino + 1 := Inode("", pid)]
                && world.procs[pid] == old(world).procs[pid].(pc := Running(Cache(ino, ino + 1, false)))
    {
      TakeLock(pid, ino, luck.locks);
      if world.procs[pid].pc.CreateStdout? {
        OpenStdoutFile(pid, ino, ino + 1, luck.opens);
      }
    }

    /** Makes the directory and the two files. */
    method MakeEntry(pid: nat, luck: Luck, ino: nat)
      requires Valid() && At(pid, MakeDir) && Start !in FilesAt(world, SlotOf(cfg, world, pid))
      requires Below(world.inodes, ino)
      modifies this
      ensures Valid() && OnlyMine(pid, SlotOf(cfg, old(world), pid))
      ensures Below(world.inodes, ino + 2) && Kept(old(world).inodes, world.inodes)
      ensures var e := EntryAt(old(world), SlotOf(cfg, old(world), pid));
              var files := Files(e);
              var locked := (luck.mkdir.Made? || (luck.mkdir.ErrorIgnored? && e.Present?)) && luck.locks;
              var cached := locked && luck.opens && Stdout !in files;
              && FilesAt(world, SlotOf(cfg, old(world), pid)) ==
                 (if !locked then files else if !cached then files[Start := ino] else files[Start := ino][Stdout := ino + 1])
              && (cached ==> EntryAt(world, SlotOf(cfg, old(world), pid)).Present?
                             && ino + 1 in world.inodes && world.inodes[ino + 1].bytes == "")
              && world.procs[pid] == old(world).procs[pid].(
                   pc := Running(if cached then Cache(ino, ino + 1, false) else NoCache))
    {
      MakeDirectory(pid, luck.mkdir);
      if world.procs[pid].pc.CreateStart? {
        LockAndOpen(pid, luck, ino);
      }
    }

    /** Up to the open sink, or the decision to run without cache. */
    method PrepareCacheDir(pid: nat, luck: Luck, ino: nat) returns (writeCache: bool)
      requires Valid() && At(pid, StatStart)
      requires Below(world.inodes, ino)
      modifies this
      ensures Valid() && OnlyMine(pid, SlotOf(cfg, old(world), pid))
      ensures Below(world.inodes, ino + 2) && Kept(old(world).inodes, world.inodes)
      ensures var e := EntryAt(old(world), SlotOf(cfg, old(world), pid));
              var cacheable := Cacheable(cfg, old(world).procs[pid].inv);
              && writeCache == Obtains(Files(e).Keys, e.Present?, cacheable, luck)
              && FilesAt(world, SlotOf(cfg, old(world), pid)) == Prepared(e, cacheable, luck, ino)
              && (writeCache ==> EntryAt(world, SlotOf(cfg, old(world), pid)).Present?
                                 && ino + 1 in world.inodes && world.inodes[ino + 1].bytes == "")
              && world.procs[pid] == old(world).procs[pid].(
                   pc := Running(if writeCache then Cache(ino, ino + 1, false) else NoCache))
      ensures var e := EntryAt(old(world), SlotOf(cfg, old(world), pid));
              writeCache <==>
                && (cfg.stdinMax == 0 || |old(world).procs[pid].inv.stdin| <= cfg.stdinMax)
                && !luck.startMisled && Start !in Files(e) && Stdout !in Files(e)
                && (luck.mkdir.Made? || (luck.mkdir.ErrorIgnored? && e.Present?)) && luck.locks && luck.opens
    {
      CheckStart(pid, luck.startMisled);
      if world.procs[pid].pc.Running? {
        return false;
      }
      MakeEntry(pid, luck, ino);
      return world.procs[pid].pc.sink.Cache?;
    }

    /** One piece of the copy. */
    method CopyPiece(pid: nat, file: nat, offset: nat, n: nat)
      requires Valid() && At(pid, Reading(file, offset)) && file in world.inodes
      requires 0 < n && offset + n <= |world.inodes[file].bytes|
      modifies this
      ensures Valid() && OnlyMine(pid, SlotOf(cfg, old(world), pid)) && world.inodes == old(world).inodes
      ensures EntryAt(world, SlotOf(cfg, old(world), pid)) == EntryAt(old(world), SlotOf(cfg, old(world), pid))
      ensures var p := old(world).procs[pid];
              world.procs[pid] == p.(pc := Reading(file, offset + n),
                                     out := p.out + old(world).inodes[file].bytes[offset..offset + n])
    {
      Call(pid, Copy(n));
    }

    /** The end of the copy: all bytes read, or an error. */
    method EndCopy(pid: nat, file: nat, offset: nat, failed: bool)
      requires Valid() && At(pid, Reading(file, offset)) && file in world.inodes
      requires if failed then offset <= |world.inodes[file].bytes| else offset == |world.inodes[file].bytes|
      modifies this
      ensures Valid() && OnlyMine(pid, SlotOf(cfg, old(world), pid)) && world.inodes == old(world).inodes
      ensures EntryAt(world, SlotOf(cfg, old(world), pid)) == EntryAt(old(world), SlotOf(cfg, old(world), pid))
      ensures world.procs[pid] == old(world).procs[pid].(pc := AppendServed(if failed then 1 else 0))
    {
      if failed {
        assert world.procs[pid].out + world.inodes[file].bytes[offset..offset + 0] == world.procs[pid].out;
        Call(pid, CopyFails(0));
      } else {
        Call(pid, EndOfFile);
      }
    }

    /** Copies the open `stdout` in pieces of the size of `io.Copy`'s buffer, up to its end or to the first error. */
    method Serve(pid: nat, file: nat, fails: Option<nat>) returns (exitCode: int)
      requires Valid() && At(pid, Reading(file, 0)) && file in world.inodes && world.procs[pid].out == ""
      modifies this
      ensures Valid() && OnlyMine(pid, SlotOf(cfg, old(world), pid))
      ensures world.inodes == old(world).inodes
      ensures EntryAt(world, SlotOf(cfg, old(world), pid)) == EntryAt(old(world), SlotOf(cfg, old(world), pid))
      ensures exitCode == if fails.Some? then 1 else 0
      ensures var bytes := old(world).inodes[file].bytes;
              world.procs[pid] == old(world).procs[pid].(
                pc := AppendServed(exitCode), out := if fails.Some? then Cut(bytes, fails.value) else bytes)
    {
      var bytes := world.inodes[file].bytes;
      var all := if fails.Some? then Cut(bytes, fails.value) else bytes;
      ghost var slot := SlotOf(cfg, world, pid);
      var offset := 0;
      while offset < |all|
        invariant Valid() && 0 <= offset <= |all| && OnlyMine(pid, slot)
        invariant world.inodes == old(world).inodes && EntryAt(world, slot) == EntryAt(old(world), slot)
        invariant world.procs[pid] == old(world).procs[pid].(pc := Reading(file, offset), out := bytes[..offset])
      {
        var n := if |all| - offset < COPY_BUFFER then |all| - offset else COPY_BUFFER;
        assert bytes[..offset] + bytes[offset..offset + n] == bytes[..offset + n];
        CopyPiece(pid, file, offset, n);
        offset := offset + n;
      }
      assert bytes[..offset] == all;
      EndCopy(pid, file, offset, fails.Some?);
      exitCode := if fails.Some? then 1 else 0;
    }

    /** One write of the command, to standard output and to the sink if there is one. */
    method Write(pid: nat, chunk: string)
      requires Valid() && pid in world.procs && world.procs[pid].pc.Running?
      requires var sink := world.procs[pid].pc.sink; sink.Cache? ==> !sink.broken && sink.ino in world.inodes
      modifies this
      ensures Valid() && OnlyMine(pid, SlotOf(cfg, old(world), pid))
      ensures EntryAt(world, SlotOf(cfg, old(world), pid)) == EntryAt(old(world), SlotOf(cfg, old(world), pid))
      ensures world.procs[pid] == old(world).procs[pid].(out := old(world).procs[pid].out + chunk)
      ensures var sink := old(world).procs[pid].pc.sink;
              world.inodes == if sink.Cache? then Append(old(world).inodes, sink.ino, chunk) else old(world).inodes
    {
      Call(pid, Emit(chunk));
    }

    /** A write that fails part way, after which the command's output goes nowhere. */
    method FailWrite(pid: nat, chunk: string, f: WriteFailure)
      requires Valid() && pid in world.procs && world.procs[pid].pc.Running? && world.procs[pid].pc.sink.Cache?
      requires !world.procs[pid].pc.sink.broken && world.procs[pid].pc.sink.ino in world.inodes
      modifies this
      ensures Valid() && OnlyMine(pid, SlotOf(cfg, old(world), pid))
      ensures EntryAt(world, SlotOf(cfg, old(world), pid)) == EntryAt(old(world), SlotOf(cfg, old(world), pid))
      ensures var p := old(world).procs[pid];
              && world.procs[pid] == p.(out := p.out + Cut(chunk, f.printed), pc := Running(p.pc.sink.(broken := true)))
              && world.inodes == Append(old(world).inodes, p.pc.sink.ino, Cut(chunk, f.stored))
    {
      var printed := if f.printed < |chunk| then f.printed else |chunk|;
      var stored := if f.stored < |chunk| then f.stored else |chunk|;
      assert chunk[..|chunk|] == chunk;
      Call(pid, EmitFails(chunk, printed, stored));
    }

    /** Runs the command, which writes `chunks`, as far as its output can be taken. */
    method RunCommand(pid: nat, chunks: seq<string>, luck: Luck)
      requires Valid() && pid in world.procs && world.procs[pid].pc.Running? && world.procs[pid].out == ""
      requires var sink := world.procs[pid].pc.sink;
               sink.Cache? ==> !sink.broken && sink.ino in world.inodes && world.inodes[sink.ino].bytes == ""
      modifies this
      ensures Valid() && OnlyMine(pid, SlotOf(cfg, old(world), pid))
      ensures EntryAt(world, SlotOf(cfg, old(world), pid)) == EntryAt(old(world), SlotOf(cfg, old(world), pid))
      ensures var p := old(world).procs[pid]; var sink := p.pc.sink;
              && world.procs[pid] == p.(
                   out := Printed(chunks, sink.Cache?, luck),
                   pc := Running(if Breaks(chunks, sink.Cache?, luck) then sink.(broken := true) else sink))
              && world.inodes ==
                 if sink.Cache? then old(world).inodes[sink.ino := old(world).inodes[sink.ino].(bytes := Stored(chunks, luck))]
                 else old(world).inodes
    {
      ghost var slot := SlotOf(cfg, world, pid);
      var sink := world.procs[pid].pc.sink;
      var stop := if Breaks(chunks, sink.Cache?, luck) then luck.writeFails.value.at else |chunks|;
      var k := 0;
      assert chunks[..0] == [];
      while k < stop
        invariant Valid() && 0 <= k <= stop && OnlyMine(pid, slot)
        invariant EntryAt(world, slot) == EntryAt(old(world), slot)
        invariant world.procs[pid] == old(world).procs[pid].(out := Concat(chunks[..k]))
        invariant world.inodes ==
                  if sink.Cache? then old(world).inodes[sink.ino := old(world).inodes[sink.ino].(bytes := Concat(chunks[..k]))]
                  else old(world).inodes
      {
        ConcatNext(chunks, k);
        Write(pid, chunks[k]);
        k := k + 1;
      }
      if Breaks(chunks, sink.Cache?, luck) {
        FailWrite(pid, chunks[k], luck.writeFails.value);
      } else {
        assert chunks[..k] == chunks;
      }
    }

    /** Closes the sink, which may lose bytes without anybody noticing. */
    method CloseSink(pid: nat, lost: Option<nat>)
      requires Valid() && pid in world.procs && world.procs[pid].pc.Committing? && world.procs[pid].pc.ino in world.inodes
      modifies this
      ensures Valid() && OnlyMine(pid, SlotOf(cfg, old(world), pid)) && world.procs[pid] == old(world).procs[pid]
      ensures EntryAt(world, SlotOf(cfg, old(world), pid)) == EntryAt(old(world), SlotOf(cfg, old(world), pid))
      ensures var file := old(world).procs[pid].pc.ino;
              var inode := old(world).inodes[file];
              world.inodes == if lost.Some? then old(world).inodes[file := inode.(bytes := Cut(inode.bytes, lost.value))]
                              else old(world).inodes
    {
      if lost.Some? && lost.value < |world.inodes[world.procs[pid].pc.ino].bytes| {
        Call(pid, CloseLoses(lost.value));
      }
    }

    /** Closes the sink and marks the entry complete. */
    method MarkComplete(pid: nat, luck: Luck, ino: nat)
      requires Valid() && pid in world.procs && world.procs[pid].pc.Committing? && Below(world.inodes, ino)
      requires world.procs[pid].pc.ino in world.inodes
      requires var e := EntryAt(world, SlotOf(cfg, world, pid)); e.Present? && End !in e.files
      modifies this
      ensures Valid() && OnlyMine(pid, SlotOf(cfg, old(world), pid)) && Below(world.inodes, ino + 1)
      ensures world.procs[pid] == old(world).procs[pid].(pc := Exited(0))
      ensures var slot := SlotOf(cfg, old(world), pid);
              FilesAt(world, slot) == if luck.marks then FilesAt(old(world), slot)[End := ino] else FilesAt(old(world), slot)
      ensures var file := old(world).procs[pid].pc.ino;
              && file in world.inodes && Kept(old(world).inodes - {file}, world.inodes)
              && var bytes := old(world).inodes[file].bytes;
                 world.inodes[file].bytes == if luck.lost.Some? then Cut(bytes, luck.lost.value) else bytes
    {
      CloseSink(pid, luck.lost);
      Call(pid, Commit(ino, luck.marks));
    }

    /** Marks the entry complete after a success, purges it after a failure. */
    method Conclude(pid: nat, code: int, luck: Luck, ino: nat)
      requires Valid() && pid in world.procs && world.procs[pid].pc.Running? && Below(world.inodes, ino)
      requires var sink := world.procs[pid].pc.sink; sink.Cache? && sink.broken ==> code != 0
      requires code == 0 ==> world.procs[pid].out == cfg.output(world.procs[pid].inv)
      requires var sink := world.procs[pid].pc.sink;
               var e := EntryAt(world, SlotOf(cfg, world, pid));
               sink.Cache? ==> sink.ino in world.inodes && e.Present? && End !in e.files
      modifies this
      ensures Valid() && OnlyMine(pid, SlotOf(cfg, old(world), pid)) && Below(world.inodes, ino + 1)
      ensures world.procs[pid] == old(world).procs[pid].(pc := Exited(code))
      ensures var slot := SlotOf(cfg, old(world), pid);
              FilesAt(world, slot) == if old(world).procs[pid].pc.sink.NoCache? then FilesAt(old(world), slot)
                                      else if code != 0 then map[]
                                      else if luck.marks then FilesAt(old(world), slot)[End := ino]
                                      else FilesAt(old(world), slot)
      ensures var sink := old(world).procs[pid].pc.sink;
              if sink.NoCache? then world.inodes == old(world).inodes
              else
                && Kept(old(world).inodes - {sink.ino}, world.inodes)
                && sink.ino in world.inodes
                && var bytes := old(world).inodes[sink.ino].bytes;
                   code == 0 ==> world.inodes[sink.ino].bytes == if luck.lost.Some? then Cut(bytes, luck.lost.value) else bytes
    {
      Call(pid, Finish(code));
      if world.procs[pid].pc.Committing? {
        MarkComplete(pid, luck, ino);
      } else if world.procs[pid].pc.Purging? {
        PurgeCacheDir(pid);
      }
    }

    method Launch(pid: nat, inv: Invocation)
      requires Valid() && pid !in world.procs && inv.args != []
      modifies this
      ensures Valid() && OnlyMine(pid, Slot(cfg, inv))
      ensures world == old(world).(procs := old(world).procs[pid := Proc(inv, StatEnd, "")])
    {
      RunAppend(cfg, origin, log, Spawn(pid, inv));
      world := Step(cfg, world, Spawn(pid, inv)).value;
      log := log + [Spawn(pid, inv)];
    }

    /** Prints the open `stdout` and notes that in `served`. */
    method ServeAndLog(pid: nat, file: nat, luck: Luck, ino: nat) returns (exitCode: int)
      requires Valid() && At(pid, Reading(file, 0)) && file in world.inodes && world.procs[pid].out == ""
      requires Below(world.inodes, ino) && EntryAt(world, SlotOf(cfg, world, pid)).Present?
      modifies this
      ensures Valid() && OnlyMine(pid, SlotOf(cfg, old(world), pid))
      ensures Below(world.inodes, ino + 1) && Kept(old(world).inodes, world.inodes)
      ensures exitCode == if luck.copyFails.Some? then 1 else 0
      ensures var had := FilesAt(old(world), SlotOf(cfg, old(world), pid));
              FilesAt(world, SlotOf(cfg, old(world), pid)) == if luck.logs && Served !in had then had[Served := ino] else had
      ensures var bytes := old(world).inodes[file].bytes;
              world.procs[pid] == old(world).procs[pid].(
                pc := Exited(exitCode), out := if luck.copyFails.Some? then Cut(bytes, luck.copyFails.value) else bytes)
    {
      exitCode := Serve(pid, file, luck.copyFails);
      Call(pid, Log(ino, luck.logs));
    }

    /** Prints an entry that is marked complete; purges one whose `stdout` cannot be opened. */
    method TryServe(pid: nat, luck: Luck, ino: nat) returns (served: bool, exitCode: int)
      requires Valid() && At(pid, StatEnd) && world.procs[pid].out == "" && Below(world.inodes, ino)
      requires var files := FilesAt(world, SlotOf(cfg, world, pid)); Stdout in files ==> files[Stdout] in world.inodes
      modifies this
      ensures Valid() && OnlyMine(pid, SlotOf(cfg, old(world), pid))
      ensures Below(world.inodes, ino + 1) && Kept(old(world).inodes, world.inodes)
      ensures var slot := SlotOf(cfg, old(world), pid);
              var had := FilesAt(old(world), slot);
              && served == Serves(had.Keys, luck)
              && (if served then
                    var bytes := old(world).inodes[had[Stdout]].bytes;
                    && FilesAt(world, slot) == (if luck.logs && Served !in had then had[Served := ino] else had)
                    && exitCode == (if luck.copyFails.Some? then 1 else 0)
                    && world.procs[pid] == old(world).procs[pid].(
                         pc := Exited(exitCode), out := if luck.copyFails.Some? then Cut(bytes, luck.copyFails.value) else bytes)
                  else
                    && EntryAt(world, slot) == (if Purges(had.Keys, luck) then Missing else EntryAt(old(world), slot))
                    && world.inodes == old(world).inodes
                    && world.procs[pid] == old(world).procs[pid].(pc := StatStart))
    {
      Call(pid, LookForEnd(luck.endMisled));
      if world.procs[pid].pc.StatStart? {
        return false, 0;
      }
      Call(pid, Open(luck.refused));
      if world.procs[pid].pc.Reading? {
        exitCode := ServeAndLog(pid, world.procs[pid].pc.ino, luck, ino);
        return true, exitCode;
      }
      PurgeCacheDir(pid);
      return false, 0;
    }

    /** Runs the command and brings the entry to its end. */
    method RunAndConclude(pid: nat, chunks: seq<string>, code: int, luck: Luck, ino: nat) returns (exitCode: int)
      requires Valid() && pid in world.procs && world.procs[pid].pc.Running? && world.procs[pid].out == ""
      requires Below(world.inodes, ino)
      requires code == 0 ==> Concat(chunks) == cfg.output(world.procs[pid].inv)
      requires var sink := world.procs[pid].pc.sink;
               var e := EntryAt(world, SlotOf(cfg, world, pid));
               sink.Cache? ==> && !sink.broken && sink.ino in world.inodes && world.inodes[sink.ino].bytes == ""
                               && e.Present? && End !in e.files
      modifies this
      ensures Valid() && OnlyMine(pid, SlotOf(cfg, old(world), pid)) && Below(world.inodes, ino + 1)
      ensures var p := old(world).procs[pid];
              var slot := SlotOf(cfg, old(world), pid);
              var files := FilesAt(old(world), slot);
              && exitCode == ExitCode(code, chunks, p.pc.sink.Cache?, luck)
              && world.procs[pid] == p.(pc := Exited(exitCode), out := Printed(chunks, p.pc.sink.Cache?, luck))
              && FilesAt(world, slot) == (if p.pc.sink.NoCache? then files
                                          else if exitCode != 0 then map[]
                                          else if luck.marks then files[End := ino]
                                          else files)
              && if p.pc.sink.NoCache? then world.inodes == old(world).inodes
                 else
                   && Kept(old(world).inodes - {p.pc.sink.ino}, world.inodes)
                   && (exitCode == 0 ==> p.pc.sink.ino in world.inodes
                                         && world.inodes[p.pc.sink.ino].bytes == Saved(chunks, luck))
    {
      RunCommand(pid, chunks, luck);
      exitCode := ExitCode(code, chunks, world.procs[pid].pc.sink.Cache?, luck);
      Conclude(pid, exitCode, luck, ino);
    }

    /** The part of `main` after the lookup has failed. */
    method Miss(pid: nat, chunks: seq<string>, code: int, luck: Luck, ino: nat) returns (exitCode: int)
      requires Valid() && At(pid, StatStart) && world.procs[pid].out == ""
      requires Below(world.inodes, ino)
      requires code == 0 ==> Concat(chunks) == cfg.output(world.procs[pid].inv)
      requires End !in FilesAt(world, SlotOf(cfg, world, pid))
      modifies this
      ensures Valid() && OnlyMine(pid, SlotOf(cfg, old(world), pid))
      ensures Below(world.inodes, ino + 3) && Kept(old(world).inodes, world.inodes)
      ensures var e := EntryAt(old(world), SlotOf(cfg, old(world), pid));
              var cacheable := Cacheable(cfg, old(world).procs[pid].inv);
              var cached := Obtains(Files(e).Keys, e.Present?, cacheable, luck);
              var left := FilesAt(world, SlotOf(cfg, old(world), pid));
              && exitCode == ExitCode(code, chunks, cached, luck)
              && world.procs[pid] == old(world).procs[pid].(pc := Exited(exitCode), out := Printed(chunks, cached, luck))
              && left == (if !cached then Prepared(e, cacheable, luck, ino)
                          else if exitCode != 0 then map[]
                          else if luck.marks then Prepared(e, cacheable, luck, ino)[End := ino + 2]
                          else Prepared(e, cacheable, luck, ino))
              && (cached && exitCode == 0 ==>
                    && ino + 1 in world.inodes
                    && world.inodes[ino + 1].bytes == Saved(chunks, luck))
    {
      var writeCache := PrepareCacheDir(pid, luck, ino);
      exitCode := RunAndConclude(pid, chunks, code, luck, ino + 2);
    }

    /** The same, in terms of the names left. */
    method MissAndName(pid: nat, chunks: seq<string>, code: int, luck: Luck, ino: nat) returns (exitCode: int)
      requires Valid() && At(pid, StatStart) && world.procs[pid].out == ""
      requires Below(world.inodes, ino)
      requires code == 0 ==> Concat(chunks) == cfg.output(world.procs[pid].inv)
      requires End !in FilesAt(world, SlotOf(cfg, world, pid))
      modifies this
      ensures Valid() && OnlyMine(pid, SlotOf(cfg, old(world), pid))
      ensures Below(world.inodes, ino + 3) && Kept(old(world).inodes, world.inodes)
      ensures var e := EntryAt(old(world), SlotOf(cfg, old(world), pid));
              var cacheable := Cacheable(cfg, old(world).procs[pid].inv);
              var cached := Obtains(Files(e).Keys, e.Present?, cacheable, luck);
              var left := FilesAt(world, SlotOf(cfg, old(world), pid));
              && exitCode == ExitCode(code, chunks, cached, luck)
              && world.procs[pid] == old(world).procs[pid].(pc := Exited(exitCode), out := Printed(chunks, cached, luck))
              && left.Keys == MissNames(Files(e).Keys, e.Present?, cacheable, luck, exitCode)
              && (Hit(left.Keys) ==> left[Stdout] in world.inodes && world.inodes[left[Stdout]].bytes == Saved(chunks, luck))
    {
      ghost var slot := SlotOf(cfg, world, pid);
      ghost var e := EntryAt(world, slot);
      exitCode := Miss(pid, chunks, code, luck, ino);
      PreparedThenConcluded(e, Cacheable(cfg, world.procs[pid].inv), luck, exitCode, ino, FilesAt(world, slot));
    }

    /** Serves the cached output, or runs the command and tries to cache what it prints. */
    method ServeOrRun(pid: nat, chunks: seq<string>, code: int, luck: Luck, ino: nat) returns (exitCode: int)
      requires Valid() && At(pid, StatEnd) && world.procs[pid].out == "" && Below(world.inodes, ino)
      requires var files := FilesAt(world, SlotOf(cfg, world, pid)); Stdout in files ==> files[Stdout] in world.inodes
      requires code == 0 ==> Concat(chunks) == cfg.output(world.procs[pid].inv)
      modifies this
      ensures Valid() && OnlyMine(pid, SlotOf(cfg, old(world), pid))
      ensures Below(world.inodes, ino + 3) && Kept(old(world).inodes, world.inodes)
      ensures var inv := old(world).procs[pid].inv;
              Ran(cfg, EntryAt(old(world), Slot(cfg, inv)), old(world).inodes, inv, chunks, code, luck,
                  FilesAt(world, Slot(cfg, inv)), world.inodes, world.procs[pid], exitCode)
    {
      ghost var slot, inv := SlotOf(cfg, world, pid), world.procs[pid].inv;
      ghost var e, before := EntryAt(world, slot), world.inodes;
      var served;
      served, exitCode := TryServe(pid, luck, ino);
      if served {
        RanServed(cfg, e, before, inv, chunks, code, luck, FilesAt(world, slot), world.inodes, world.procs[pid], exitCode, ino);
      } else {
        ghost var found := EntryAt(world, slot);
        exitCode := MissAndName(pid, chunks, code, luck, ino);
        RanMissed(cfg, e, before, inv, chunks, code, luck, FilesAt(world, slot), world.inodes, world.procs[pid], exitCode, found);
      }
    }

    /** The whole program. */
    method RunHook(pid: nat, inv: Invocation, chunks: seq<string>, code: int, luck: Luck, ino: nat) returns (exitCode: int)
      requires Valid() && pid !in world.procs && inv.args != []
      requires Below(world.inodes, ino)
      requires Stdout in FilesAt(world, Slot(cfg, inv)) ==> FilesAt(world, Slot(cfg, inv))[Stdout] in world.inodes
      requires code == 0 ==> Concat(chunks) == cfg.output(inv)
      modifies this
      ensures Valid() && OnlyMine(pid, Slot(cfg, inv))
      ensures Below(world.inodes, ino + 3) && Kept(old(world).inodes, world.inodes)
      ensures Ran(cfg, EntryAt(old(world), Slot(cfg, inv)), old(world).inodes, inv, chunks, code, luck,
                  FilesAt(world, Slot(cfg, inv)), world.inodes, world.procs[pid], exitCode)
      ensures cfg.stdinMax != 0 && |inv.stdin| > cfg.stdinMax ==>
                FilesAt(world, Slot(cfg, inv)).Keys <= old(FilesAt(world, Slot(cfg, inv)).Keys) + {Served}
      ensures (cfg.stdinMax == 0 || |inv.stdin| <= cfg.stdinMax) && old(FilesAt(world, Slot(cfg, inv))) == map[]
              && luck == NOTHING_FAILS && exitCode == 0
              ==> FilesAt(world, Slot(cfg, inv)).Keys == {Start, Stdout, End}
    {
      ghost var e, before := EntryAt(world, Slot(cfg, inv)), world.inodes;
      Launch(pid, inv);
      exitCode := ServeOrRun(pid, chunks, code, luck, ino);
      LimitDecides(cfg, e, before, inv, chunks, code, luck, FilesAt(world, Slot(cfg, inv)), world.inodes, world.procs[pid], exitCode);
    }

    /** An entry with `end` but no `stdout` is rebuilt by the next run that can cache and in which nothing fails;
        the run after that prints the same bytes, although its own command would fail. */
    method RebuildThenServe(first: nat, second: nat, inv: Invocation, chunks: seq<string>, ino: nat)
      requires Valid() && first !in world.procs && second !in world.procs && first != second
      requires inv.args != [] && Cacheable(cfg, inv) && Below(world.inodes, ino)
      requires var files := FilesAt(world, Slot(cfg, inv)); End in files && Stdout !in files
      requires Concat(chunks) == cfg.output(inv)
      modifies this
      ensures Valid()
      ensures first in world.procs && second in world.procs
      ensures world.procs[first] == Proc(inv, Exited(0), cfg.output(inv))
      ensures world.procs[second] == Proc(inv, Exited(0), cfg.output(inv))
      ensures FilesAt(world, Slot(cfg, inv)).Keys == {Start, Stdout, End, Served}
    {
      var code := RunHook(first, inv, chunks, 0, NOTHING_FAILS, ino);
      code := RunHook(second, inv, [], 1, NOTHING_FAILS, ino + 3);
    }
  }
}
