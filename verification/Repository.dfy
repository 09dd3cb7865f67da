/** One managed repository: requests, the fetch pool with its single worker, background fetches, bundle recovery
    and `git gc`, interleaved in any order. */
module Repository {
  import opened Clock
  import opened Options

  type Oid = string

  const FETCH_INTERVAL := 15 * 60 * SECOND
  const QUEUE_CAPACITY := 1000

  datatype Task = OnDemand(rid: nat) | Background(must: bool)

  /** What the one worker of the fetch pool is doing. `missing` is the hash that made an on-demand task fetch. */
  datatype Worker =
    | Idle
    | Rechecking(rid: nat, k: nat)
    | Deciding(must: bool)
    | Locking(task: Task, missing: Option<Oid>)
    | FetchingAll(task: Task, missing: Option<Oid>, start: int)
    | FetchingOrigin(task: Task, missing: Option<Oid>, start: int, listed: Option<set<Oid>>)
    | Publishing(task: Task, missing: Option<Oid>, start: int, ok: bool)
    | Unlocking(task: Task, missing: Option<Oid>)
    | Finishing(task: Task, missing: Option<Oid>)
    | GcLocking
    | Collecting

  datatype Failure = CheckError | RequestClosed

  /** How a request ends, and the error it reports if it is not served. After a fetch that left wants missing
      that error is nil. */
  datatype Outcome = Served | Refused(reported: Option<Failure>)

  /** Where `handleV2Command` stands; `after` tells the check after the fetch from the one before. */
  datatype RequestPc =
    | Checking(after: bool, k: nat)
    | Enqueueing
    | Waiting
    | Woken
    | Submitting
    | ServeQueued
    | Serving
    | Done(outcome: Outcome)

  datatype Request = Request(wants: seq<Oid>, pc: RequestPc)

  datatype Holder = Free | ByWorker | ByRecovery

  /** `born` tells when an object became reachable from the upstream heads. `good` and `useful` are history:
      the start times of the successful fetches, and the missing hash of every on-demand fetch task
      that ended with its wants satisfied. */
  datatype State = State(
    now: int,
    born: map<Oid, int>,
    store: set<Oid>,
    lastUpdate: int,
    mu: Holder,
    queue: seq<Task>,
    worker: Worker,
    requests: map<nat, Request>,
    good: seq<int>,
    useful: seq<Oid>)

  /** Steps of a request. */
  datatype RequestAction =
    | CheckHash
    | CheckFails
    | Enqueue
    | Cancel
    | Resume
    | SubmitServe
    | StartServe
    | EndServe

  /** Steps of the worker on taking a task. */
  datatype PickupAction = Pickup | Recheck | RecheckFails | Decide

  /** Steps of the worker inside `fetchUpstream`. */
  datatype FetchAction =
    | TakeLock
    | AllDone(got: set<Oid>)
    | ListHeads
    | Receive(got: set<Oid>)
    | OriginDone(ok: bool)
    | Publish
    | Unlock

  /** Steps of the worker after the fetch. */
  datatype EndAction = EndTask(gcLog: bool) | TakeGcLock | Collect(removed: set<Oid>)

  datatype Event =
    | Tick(d: nat)
    | UpstreamGains(o: Oid)
    | Arrive(rid: nat, wants: seq<Oid>)
    | Ask(must: bool)
    | RecoverLock
    | RecoverDone(got: set<Oid>)
    | At(rid: nat, action: RequestAction)
    | Take(pickup: PickupAction)
    | Fetch(fetch: FetchAction)
    | End(end: EndAction)

  function Go(s: State, rid: nat, pc: RequestPc): State
    requires rid in s.requests
  {
    s.(requests := s.requests[rid := s.requests[rid].(pc := pc)])
  }

  /** The steps of one request. */
  function RequestStep(s: State, rid: nat, a: RequestAction): Option<State> {
    if rid !in s.requests then None
    else
      var r := s.requests[rid];
      match a
      case CheckHash =>
        if !r.pc.Checking? then None
        else if r.pc.k >= |r.wants| then Some(Go(s, rid, Submitting))
        else if r.wants[r.pc.k] in s.store then Some(Go(s, rid, Checking(r.pc.after, r.pc.k + 1)))
        else Some(Go(s, rid, if r.pc.after then Done(Refused(None)) else Enqueueing))
      case CheckFails =>
        if r.pc.Checking? then Some(Go(s, rid, Done(Refused(Some(CheckError))))) else None
      case Enqueue =>
        if r.pc.Enqueueing? && |s.queue| < QUEUE_CAPACITY then
          Some(Go(s, rid, Waiting).(queue := s.queue + [OnDemand(rid)]))
        else None
      case Cancel =>
        if r.pc.Woken? then Some(Go(s, rid, Done(Refused(Some(RequestClosed))))) else None
      case Resume =>
        if r.pc.Woken? then Some(Go(s, rid, Checking(true, 0))) else None
      case SubmitServe =>
        if r.pc.Submitting? then Some(Go(s, rid, ServeQueued)) else None
      case StartServe =>
        if r.pc.ServeQueued? then Some(Go(s, rid, Serving)) else None
      case EndServe =>
        if r.pc.Serving? then Some(Go(s, rid, Done(Served))) else None
  }

  function Wants(s: State, task: Task): seq<Oid> {
    if task.OnDemand? && task.rid in s.requests then s.requests[task.rid].wants else []
  }

  /** Only the first want becomes part of the refspec. */
  function Asked(s: State, task: Task): set<Oid> {
    if Wants(s, task) == [] then {} else {Wants(s, task)[0]}
  }

  predicate AllIn(wants: seq<Oid>, store: set<Oid>) {
    forall k :: 0 <= k < |wants| ==> wants[k] in store
  }

  /** The steps of the worker up to the lock: the check on pickup. */
  function PickupStep(s: State, a: PickupAction): Option<State> {
    match a
    case Pickup =>
      if !s.worker.Idle? || s.queue == [] then None
      else Some(s.(queue := s.queue[1..],
                   worker := match s.queue[0]
                             case OnDemand(rid) => Rechecking(rid, 0)
                             case Background(must) => Deciding(must)))
    case Recheck =>
      if !s.worker.Rechecking? then None
      else
        var wants := Wants(s, OnDemand(s.worker.rid));
        if s.worker.k >= |wants| then Some(s.(worker := Finishing(OnDemand(s.worker.rid), None)))
        else if wants[s.worker.k] in s.store then Some(s.(worker := s.worker.(k := s.worker.k + 1)))
        else Some(s.(worker := Locking(OnDemand(s.worker.rid), Some(wants[s.worker.k]))))
    case RecheckFails =>
      if s.worker.Rechecking? then Some(s.(worker := Finishing(OnDemand(s.worker.rid), None))) else None
    case Decide =>
      if !s.worker.Deciding? then None
      else if !s.worker.must && s.now - s.lastUpdate * SECOND < FETCH_INTERVAL then
        Some(s.(worker := Finishing(Background(s.worker.must), None)))
      else Some(s.(worker := Locking(Background(s.worker.must), None)))
  }

  /** `fetchUpstream`: the start time is taken under the lock, the first fetch's error is dropped,
      and the update time is published before unlocking. */
  function FetchStep(s: State, a: FetchAction): Option<State> {
    match a
    case TakeLock =>
      if s.worker.Locking? && s.mu.Free? then
        Some(s.(mu := ByWorker, worker := FetchingAll(s.worker.task, s.worker.missing, s.now)))
      else None
    case AllDone(got) =>
      if s.worker.FetchingAll? then
        Some(s.(store := s.store + got,
                worker := FetchingOrigin(s.worker.task, s.worker.missing, s.worker.start, None)))
      else None
    case ListHeads =>
      if s.worker.FetchingOrigin? && s.worker.listed.None? then
        Some(s.(worker := s.worker.(listed := Some(s.born.Keys))))
      else None
    case Receive(got) =>
      if s.worker.FetchingOrigin? then Some(s.(store := s.store + got)) else None
    case OriginDone(ok) =>
      if !s.worker.FetchingOrigin? then None
      else if ok && !(s.worker.listed.Some? && s.worker.listed.value <= s.store && Asked(s, s.worker.task) <= s.store) then None
      else Some(s.(worker := Publishing(s.worker.task, s.worker.missing, s.worker.start, ok)))
    case Publish =>
      if !s.worker.Publishing? then None
      else
        var s' := s.(worker := Unlocking(s.worker.task, s.worker.missing));
        Some(if s.worker.ok then s'.(lastUpdate := Unix(s.worker.start), good := s.good + [s.worker.start]) else s')
    case Unlock =>
      if s.worker.Unlocking? then Some(s.(mu := Free, worker := Finishing(s.worker.task, s.worker.missing))) else None
  }

  /** The end of a task: an on-demand task wakes its request; a background task may find `gc.log` and run `git gc`. */
  function EndStep(s: State, a: EndAction): Option<State> {
    match a
    case EndTask(gcLog) =>
      if !s.worker.Finishing? then None
      else
        (match s.worker.task
         case OnDemand(rid) =>
           if rid !in s.requests then None
           else
             var s' := Go(s, rid, Woken).(worker := Idle);
             Some(if s.worker.missing.Some? && AllIn(s.requests[rid].wants, s.store)
                  then s'.(useful := s.useful + [s.worker.missing.value]) else s')
         case Background(_) => Some(s.(worker := if gcLog then GcLocking else Idle)))
    case TakeGcLock =>
      if s.worker.GcLocking? && s.mu.Free? then Some(s.(mu := ByWorker, worker := Collecting)) else None
    case Collect(removed) =>
      if s.worker.Collecting? then Some(s.(store := s.store - removed, mu := Free, worker := Idle)) else None
  }

  /** A background fetch may be queued at any time: what its caller looked at before submitting, the waiting tasks and
      the time since the last update, may have changed by then, and a caller that skips takes no step here. */
  function Step(s: State, e: Event): Option<State> {
    match e
    case Tick(d) => Some(s.(now := s.now + d))
    case UpstreamGains(o) => Some(if o in s.born then s else s.(born := s.born[o := s.now]))
    case Arrive(rid, wants) =>
      if rid in s.requests then None else Some(s.(requests := s.requests[rid := Request(wants, Checking(false, 0))]))
    case Ask(must) =>
      if |s.queue| < QUEUE_CAPACITY then Some(s.(queue := s.queue + [Background(must)])) else None
    case RecoverLock => if s.mu.Free? then Some(s.(mu := ByRecovery)) else None
    case RecoverDone(got) => if s.mu.ByRecovery? then Some(s.(mu := Free, store := s.store + got)) else None
    case At(rid, a) => RequestStep(s, rid, a)
    case Take(a) => PickupStep(s, a)
    case Fetch(a) => FetchStep(s, a)
    case End(a) => EndStep(s, a)
  }

  function Run(s: State, events: seq<Event>): Option<State>
    decreases |events|
  {
    if events == [] then Some(s)
    else
      match Step(s, events[0])
      case None => None
      case Some(s') => Run(s', events[1..])
  }

  /** An initialised repository that nobody uses yet. */
  predicate Init(s: State) {
    && 0 <= s.now && s.lastUpdate == 0
    && (forall o :: o in s.born ==> s.born[o] <= s.now)
    && (forall o :: o in s.born ==> 0 <= s.born[o])
    && s.mu.Free? && s.queue == [] && s.worker.Idle? && s.requests == map[] && s.good == [] && s.useful == []
  }
}
