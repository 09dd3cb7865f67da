/** The `packobjects` hook as a machine of interleaved processes over a shared cache directory.
    One action is one system call; a process may crash between any two of them. */
module HookCache {
  import opened Options
  import opened HookKey

  /** What stays fixed during a run. `hash` is SHA-256; `output` is what the command prints when it exits with 0. */
  datatype Config = Config(hash: string -> Digest, output: Invocation -> string, dir: string, stdinMax: int)

  function Slot(cfg: Config, i: Invocation): string {
    EntryPath(cfg.dir, cfg.hash(Preimage(i)))
  }

  predicate Cacheable(cfg: Config, i: Invocation) {
    !(cfg.stdinMax != 0 && |i.stdin| > cfg.stdinMax)
  }

  datatype File = Start | Stdout | End | Served

  /** Directory of one key: names bound to inode numbers. */
  datatype Entry = Missing | Present(files: map<File, nat>)

  /** An inode outlives its name; `creator` records which process made it. */
  datatype Inode = Inode(bytes: string, creator: nat)

  datatype Sink = NoCache | Cache(lock: nat, ino: nat, broken: bool)

  datatype After = ThenPrepare | ThenExit(code: int, lock: nat)

  datatype Stage = RmEnd | RmStdout | ListDir | RmNames(rest: seq<File>)

  /** Where a hook process stands in `main`. */
  datatype Pc =
    | StatEnd
    | OpenStdout
    | Reading(ino: nat, offset: nat)
    | AppendServed(code: int)
    | Purging(stage: Stage, after: After)
    | StatStart
    | MakeDir
    | CreateStart
    | CreateStdout(lock: nat)
    | Running(sink: Sink)
    | Committing(lock: nat, ino: nat)
    | Exited(code: int)
    | Crashed

  /** `out` is everything the process has written to its own standard output. */
  datatype Proc = Proc(inv: Invocation, pc: Pc, out: string)

  datatype MkdirOutcome = Made | ErrorIgnored | ErrorExists

  /** System calls, with whatever the operating system or the command decides as arguments. */
  datatype Action =
    | LookForEnd(misled: bool)
    | Open(refused: bool)
    | Copy(n: nat)
    | EndOfFile
    | CopyFails(n: nat)
    | Log(ino: nat, ok: bool)
    | Remove(order: seq<File>)
    | LookForStart(misled: bool)
    | MkdirAll(outcome: MkdirOutcome)
    | Lock(ino: nat, ok: bool)
    | OpenSink(ino: nat, ok: bool)
    | Emit(chunk: string)
    | EmitFails(chunk: string, printed: nat, stored: nat)
    | Finish(code: int)
    | CloseLoses(kept: nat)
    | Commit(ino: nat, ok: bool)

  /** What one process can see and change: its entry, the inodes, itself. */
  datatype View = View(entry: Entry, inodes: map<nat, Inode>, proc: Proc)

  function Files(e: Entry): map<File, nat> {
    if e.Present? then e.files else map[]
  }

  function Without(e: Entry, f: File): Entry {
    if e.Present? then Present(e.files - {f}) else e
  }

  function AfterPurge(after: After): Pc {
    match after
    case ThenPrepare => StatStart
    case ThenExit(code, _) => Exited(code)
  }

  /** A directory listing: every name once, in any order. */
  predicate Lists(order: seq<File>, names: set<File>) {
    multiset(order) == multiset(names)
  }

  /** Creates `f` if the directory exists and the name is free (`O_CREATE|O_EXCL`). */
  predicate CanCreate(v: View, f: File, ino: nat, ok: bool) {
    ok && v.entry.Present? && f !in v.entry.files && ino !in v.inodes
  }

  function Create(v: View, f: File, ino: nat, pid: nat, pc: Pc): View
    requires v.entry.Present?
  {
    View(Present(v.entry.files[f := ino]), v.inodes[ino := Inode("", pid)], v.proc.(pc := pc))
  }

  function Goto(v: View, pc: Pc): Option<View> {
    Some(v.(proc := v.proc.(pc := pc)))
  }

  function RemoveStep(v: View, order: seq<File>): Option<View>
    requires v.proc.pc.Purging?
  {
    var Purging(stage, after) := v.proc.pc;
    match stage
    case RmEnd =>
      Goto(v.(entry := Without(v.entry, End)), Purging(RmStdout, after))
    case RmStdout =>
      Goto(v.(entry := Without(v.entry, Stdout)), Purging(ListDir, after))
    case ListDir =>
      if Lists(order, Files(v.entry).Keys) then Goto(v, Purging(RmNames(order), after)) else None
    case RmNames(rest) =>
      if rest != [] then
        Goto(v.(entry := Without(v.entry, rest[0])), Purging(RmNames(rest[1..]), after))
      else
        Goto(v.(entry := if v.entry == Present(map[]) then Missing else v.entry), AfterPurge(after))
  }

  function Append(inodes: map<nat, Inode>, ino: nat, bytes: string): map<nat, Inode> {
    if ino in inodes then inodes[ino := inodes[ino].(bytes := inodes[ino].bytes + bytes)] else inodes
  }

  function RunStep(cfg: Config, v: View, a: Action): Option<View>
    requires v.proc.pc.Running?
  {
    var sink, out := v.proc.pc.sink, v.proc.out;
    match a
    case Emit(chunk) =>
      if sink.NoCache? then
        Some(v.(proc := v.proc.(out := out + chunk)))
      else if !sink.broken then
        Some(v.(inodes := Append(v.inodes, sink.ino, chunk), proc := v.proc.(out := out + chunk)))
      else None
    case EmitFails(chunk, printed, stored) =>
      if sink.Cache? && !sink.broken && printed <= |chunk| && stored <= |chunk| then
        Some(v.(inodes := Append(v.inodes, sink.ino, chunk[..stored]),
                proc := v.proc.(out := out + chunk[..printed], pc := Running(sink.(broken := true)))))
      else None
    case Finish(code) =>
      if code == 0 && (out != cfg.output(v.proc.inv) || (sink.Cache? && sink.broken)) then None
      else if sink.NoCache? then Goto(v, Exited(code))
      else if code == 0 then Goto(v, Committing(sink.lock, sink.ino))
      else Goto(v, Purging(RmEnd, ThenExit(code, sink.lock)))
    case _ => None
  }

  /** Looking for `end`, for an openable `stdout`, for `start`. */
  function LookupStep(cfg: Config, v: View, a: Action): Option<View> {
    var files := Files(v.entry);
    match a
    case LookForEnd(misled) =>
      if v.proc.pc.StatEnd? then Goto(v, if misled || End in files then OpenStdout else StatStart) else None
    case Open(refused) =>
      if v.proc.pc.OpenStdout? then
        Goto(v, if !refused && Stdout in files then Reading(files[Stdout], 0) else Purging(RmEnd, ThenPrepare))
      else None
    case LookForStart(misled) =>
      if v.proc.pc.StatStart? then
        Goto(v, if !Cacheable(cfg, v.proc.inv) || misled || Start in files then Running(NoCache) else MakeDir)
      else None
    case _ => None
  }

  /** Copying the cached `stdout`. */
  function ReadStep(v: View, a: Action): Option<View>
    requires v.proc.pc.Reading?
  {
    var Reading(ino, offset) := v.proc.pc;
    if ino !in v.inodes then None
    else
      var bytes := v.inodes[ino].bytes;
      match a
      case Copy(n) =>
        if 0 < n && offset + n <= |bytes| then
          Some(v.(proc := v.proc.(pc := Reading(ino, offset + n), out := v.proc.out + bytes[offset..offset + n])))
        else None
      case EndOfFile => if offset == |bytes| then Goto(v, AppendServed(0)) else None
      case CopyFails(n) =>
        if offset + n <= |bytes| then
          Some(v.(proc := v.proc.(pc := AppendServed(1), out := v.proc.out + bytes[offset..offset + n])))
        else None
      case _ => None
  }

  /** Creating the directory, the lock and the payload file of an entry. */
  function CreateStep(pid: nat, v: View, a: Action): Option<View> {
    match v.proc.pc
    case MakeDir =>
      if !a.MkdirAll? then None
      else
        (match a.outcome
         case Made => Goto(v.(entry := Present(Files(v.entry))), CreateStart)
         case ErrorIgnored => Goto(v, CreateStart)
         case ErrorExists => Goto(v, Running(NoCache)))
    case CreateStart =>
      if !a.Lock? then None
      else if CanCreate(v, Start, a.ino, a.ok) then Some(Create(v, Start, a.ino, pid, CreateStdout(a.ino)))
      else Goto(v, Running(NoCache))
    case CreateStdout(lock) =>
      if !a.OpenSink? then None
      else if CanCreate(v, Stdout, a.ino, a.ok) then
        Some(Create(v, Stdout, a.ino, pid, Running(Cache(lock, a.ino, false))))
      else Goto(v, Running(NoCache))
    case _ => None
  }

  /** Adding `served` or `end` to an entry whose `stdout` is done with. The error of closing `stdout`, when bytes
      written before do not reach the disk after all, is not looked at. */
  function MarkStep(pid: nat, v: View, a: Action): Option<View> {
    match v.proc.pc
    case AppendServed(code) =>
      if !a.Log? then None
      else if CanCreate(v, Served, a.ino, a.ok) then Some(Create(v, Served, a.ino, pid, Exited(code)))
      else Goto(v, Exited(code))
    case Committing(_, ino) =>
      (match a
       case CloseLoses(kept) =>
         if ino in v.inodes && kept < |v.inodes[ino].bytes| then
           Some(v.(inodes := v.inodes[ino := v.inodes[ino].(bytes := v.inodes[ino].bytes[..kept])]))
         else None
       case Commit(end, ok) =>
         if CanCreate(v, End, end, ok) then Some(Create(v, End, end, pid, Exited(0))) else Goto(v, Exited(0))
       case _ => None)
    case _ => None
  }

  /** One action of process `pid`; `None` when the process cannot take it here. */
  function Act(cfg: Config, pid: nat, v: View, a: Action): Option<View> {
    match v.proc.pc
    case Reading(_, _) => ReadStep(v, a)
    case Purging(_, _) => if a.Remove? then RemoveStep(v, a.order) else None
    case Running(_) => RunStep(cfg, v, a)
    case AppendServed(_) => MarkStep(pid, v, a)
    case Committing(_, _) => MarkStep(pid, v, a)
    case _ => if a.LookForEnd? || a.Open? || a.LookForStart? then LookupStep(cfg, v, a) else CreateStep(pid, v, a)
  }

  /** The shared disk and all processes ever started. */
  datatype World = World(entries: map<string, Entry>, inodes: map<nat, Inode>, procs: map<nat, Proc>)

  datatype Event =
    | Spawn(pid: nat, inv: Invocation)
    | Do(pid: nat, action: Action)
    | Crash(pid: nat)
    | OutsideRemove(slot: string, file: File)

  const EMPTY: World := World(map[], map[], map[])

  function EntryAt(w: World, slot: string): Entry {
    if slot in w.entries then w.entries[slot] else Missing
  }

  function SlotOf(cfg: Config, w: World, pid: nat): string
    requires pid in w.procs
  {
    Slot(cfg, w.procs[pid].inv)
  }

  function Put(w: World, slot: string, pid: nat, v: View): World {
    World(w.entries[slot := v.entry], v.inodes, w.procs[pid := v.proc])
  }

  function Step(cfg: Config, w: World, e: Event): Option<World> {
    match e
    case Spawn(pid, inv) =>
      if pid in w.procs || inv.args == [] then None
      else Some(w.(procs := w.procs[pid := Proc(inv, StatEnd, "")]))
    case Do(pid, a) =>
      if pid !in w.procs then None
      else
        var slot := SlotOf(cfg, w, pid);
        (match Act(cfg, pid, View(EntryAt(w, slot), w.inodes, w.procs[pid]), a)
         case None => None
         case Some(v) => Some(Put(w, slot, pid, v)))
    case Crash(pid) =>
      if pid !in w.procs || w.procs[pid].pc.Exited? then None
      else Some(w.(procs := w.procs[pid := w.procs[pid].(pc := Crashed)]))
    case OutsideRemove(slot, file) =>
      Some(w.(entries := w.entries[slot := Without(EntryAt(w, slot), file)]))
  }

  /** What the environment should not do: make a stat of `end` fail for another reason than absence (`fileExists`
      then answers true), refuse to open an existing `stdout`, remove `start` or `stdout` behind the hook's back,
      lose bytes of `stdout` that it had accepted. */
  datatype Fault = MisledStat | RefusedOpen | StartRemoved | StdoutRemoved | WriteBackLost

  function FaultOf(e: Event): Option<Fault> {
    match e
    case OutsideRemove(_, Start) => Some(StartRemoved)
    case OutsideRemove(_, Stdout) => Some(StdoutRemoved)
    case Do(_, LookForEnd(true)) => Some(MisledStat)
    case Do(_, Open(true)) => Some(RefusedOpen)
    case Do(_, CloseLoses(_)) => Some(WriteBackLost)
    case _ => None
  }

  /** Everything else is allowed: crashes, failing creates and writes, and removing `end` or `served`. */
  predicate Benign(e: Event) {
    FaultOf(e).None?
  }

  function Run(cfg: Config, w: World, events: seq<Event>): Option<World>
    decreases |events|
  {
    if events == [] then Some(w)
    else
      match Step(cfg, w, events[0])
      case None => None
      case Some(w') => Run(cfg, w', events[1..])
  }

  // ----- the invariant -----

  /** The inode of the `start` file this process created and has not given up. */
  function Held(pc: Pc): Option<nat> {
    match pc
    case CreateStdout(lock) => Some(lock)
    case Running(Cache(lock, _, _)) => Some(lock)
    case Committing(lock, _) => Some(lock)
    case Purging(RmNames(rest), ThenExit(_, lock)) => if Start in rest then Some(lock) else None
    case Purging(_, ThenExit(_, lock)) => Some(lock)
    case _ => None
  }

  function FilesAt(w: World, slot: string): map<File, nat> {
    Files(EntryAt(w, slot))
  }

  /** The inode bound to `f` and the process that made it are known. */
  predicate Bound(cfg: Config, w: World, slot: string, f: File) {
    var files := FilesAt(w, slot);
    f in files && files[f] in w.inodes && var c := w.inodes[files[f]].creator; c in w.procs && SlotOf(cfg, w, c) == slot
  }

  function InodeOf(cfg: Config, w: World, slot: string, f: File): Inode
    requires Bound(cfg, w, slot, f)
  {
    w.inodes[FilesAt(w, slot)[f]]
  }

  /** Nobody holds the lock and `stdout` is the whole output of the command of the process that made it. */
  predicate Sealed(cfg: Config, w: World, slot: string) {
    && Bound(cfg, w, slot, Start)
    && Bound(cfg, w, slot, Stdout)
    && Held(w.procs[InodeOf(cfg, w, slot, Start).creator].pc) != Some(FilesAt(w, slot)[Start])
    && var file := InodeOf(cfg, w, slot, Stdout);
       var writer := w.procs[file.creator].inv;
       Cacheable(cfg, writer) && file.bytes == cfg.output(writer)
  }

  predicate HoldsLock(cfg: Config, w: World, pid: nat, lock: nat)
    requires pid in w.procs
  {
    var slot := SlotOf(cfg, w, pid);
    && Bound(cfg, w, slot, Start)
    && FilesAt(w, slot)[Start] == lock
    && w.inodes[lock].creator == pid
    && End !in FilesAt(w, slot)
    && Served !in FilesAt(w, slot)
    && Cacheable(cfg, w.procs[pid].inv)
  }

  predicate Writes(cfg: Config, w: World, pid: nat, ino: nat)
    requires pid in w.procs
  {
    var slot := SlotOf(cfg, w, pid);
    Bound(cfg, w, slot, Stdout) && FilesAt(w, slot)[Stdout] == ino && w.inodes[ino].creator == pid
  }

  predicate ExplainedBy(cfg: Config, w: World, pid: nat, q: nat)
    requires pid in w.procs
  {
    && q in w.procs
    && SlotOf(cfg, w, q) == SlotOf(cfg, w, pid)
    && (q == pid || Cacheable(cfg, w.procs[q].inv))
    && w.procs[pid].out == cfg.output(w.procs[q].inv)
  }

  /** What the process has emitted is the whole output of its own command,
      or of the cacheable command of some process with the same entry. */
  ghost predicate Explained(cfg: Config, w: World, pid: nat)
    requires pid in w.procs
  {
    exists q :: ExplainedBy(cfg, w, pid, q)
  }

  ghost predicate ProcOk(cfg: Config, w: World, pid: nat)
    requires pid in w.procs
  {
    var p := w.procs[pid];
    var slot := SlotOf(cfg, w, pid);
    match p.pc
    case StatEnd => p.out == ""
    case OpenStdout => p.out == "" && Sealed(cfg, w, slot)
    case Reading(ino, offset) =>
      && Sealed(cfg, w, slot)
      && FilesAt(w, slot)[Stdout] == ino
      && offset <= |w.inodes[ino].bytes|
      && p.out == w.inodes[ino].bytes[..offset]
    case AppendServed(code) => Sealed(cfg, w, slot) && (code == 0 ==> Explained(cfg, w, pid))
    case StatStart => p.out == ""
    case MakeDir => p.out == "" && Cacheable(cfg, p.inv)
    case CreateStart => p.out == "" && Cacheable(cfg, p.inv)
    case CreateStdout(lock) => p.out == "" && HoldsLock(cfg, w, pid, lock) && Stdout !in FilesAt(w, slot)
    case Running(NoCache) => true
    case Running(Cache(lock, ino, broken)) =>
      HoldsLock(cfg, w, pid, lock) && Writes(cfg, w, pid, ino) && (!broken ==> w.inodes[ino].bytes == p.out)
    case Committing(lock, ino) =>
      HoldsLock(cfg, w, pid, lock) && Writes(cfg, w, pid, ino) && w.inodes[ino].bytes == p.out == cfg.output(p.inv)
    case Purging(_, ThenPrepare) => false
    case Purging(stage, ThenExit(code, lock)) =>
      && code != 0
      && (match stage
          case RmEnd => HoldsLock(cfg, w, pid, lock)
          case RmStdout => HoldsLock(cfg, w, pid, lock)
          case ListDir => HoldsLock(cfg, w, pid, lock) && Stdout !in FilesAt(w, slot)
          case RmNames(rest) =>
            rest == [] || (rest == [Start] && HoldsLock(cfg, w, pid, lock) && Stdout !in FilesAt(w, slot)))
    case Exited(code) => code == 0 ==> Explained(cfg, w, pid)
    case Crashed => true
  }

  predicate EntryOk(cfg: Config, w: World, slot: string) {
    var files := FilesAt(w, slot);
    && (forall f :: f in files ==> Bound(cfg, w, slot, f))
    && (Stdout in files ==> Start in files)
    && (End in files ==> Sealed(cfg, w, slot))
    && (Served in files ==> Sealed(cfg, w, slot))
  }

  ghost predicate Inv(cfg: Config, w: World) {
    && (forall pid :: pid in w.procs ==> ProcOk(cfg, w, pid))
    && (forall slot :: EntryOk(cfg, w, slot))
  }
}
