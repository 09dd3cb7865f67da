/** Which fetches a run makes, and that they exclude each other, read off its events. */
module RepositoryFetches {
  import opened Clock
  import opened Options
  import opened Repository
  import opened RepositoryTheorems

  /** The state after the first `k` events. */
  function StateAt(s: State, events: seq<Event>, k: nat): State
    requires Run(s, events).Some? && k <= |events|
    decreases k
  {
    if k == 0 then s else StateAt(Step(s, events[0]).value, events[1..], k - 1)
  }

  lemma {:induction false} NextState(s: State, events: seq<Event>, k: nat)
    requires Run(s, events).Some? && k < |events|
    ensures Step(StateAt(s, events, k), events[k]) == Some(StateAt(s, events, k + 1))
    decreases k
  {
    if k > 0 {
      NextState(Step(s, events[0]).value, events[1..], k - 1);
    }
  }

  lemma {:induction false} LastState(s: State, events: seq<Event>)
    requires Run(s, events).Some?
    ensures StateAt(s, events, |events|) == Run(s, events).value
    decreases |events|
  {
    if events != [] {
      LastState(Step(s, events[0]).value, events[1..]);
    }
  }

  /** Event `e` does not occur strictly between `i` and `j`. */
  predicate Without(events: seq<Event>, e: Event, i: nat, j: nat) {
    forall m :: i < m < j && m < |events| ==> events[m] != e
  }

  // ----- when an on-demand fetch is made -----

  /** At `i` the check on pickup of the task that the worker has at `j` found a wanted hash missing. */
  predicate FoundMissing(s: State, events: seq<Event>, i: nat, j: nat)
    requires Run(s, events).Some? && i < j <= |events|
    requires StateAt(s, events, j).worker.Locking? && StateAt(s, events, j).worker.task.OnDemand?
  {
    var at := StateAt(s, events, i);
    var rid := StateAt(s, events, j).worker.task.rid;
    && events[i] == Take(Recheck) && Without(events, Take(Pickup), i, j)
    && at.worker.Rechecking? && at.worker.rid == rid && rid in at.requests
    && exists h :: h in at.requests[rid].wants && h !in at.store
  }

  /** Where an on-demand task that waits for the lock comes from. */
  lemma LockingFrom(s: State, e: Event)
    requires Step(s, e).Some?
    requires Step(s, e).value.worker.Locking? && Step(s, e).value.worker.task.OnDemand?
    ensures var w := Step(s, e).value.worker;
            || (s.worker == w && e != Take(Pickup))
            || (&& e == Take(Recheck) && s.worker.Rechecking? && s.worker.rid == w.task.rid && s.worker.rid in s.requests
                && s.worker.k < |s.requests[s.worker.rid].wants| && w.missing == Some(s.requests[s.worker.rid].wants[s.worker.k])
                && s.requests[s.worker.rid].wants[s.worker.k] !in s.store)
  {
    if e.At? {
      RequestShape(s, e.rid, e.action);
    }
  }

  lemma {:induction false} WaitsOnlyIfMissing(s: State, events: seq<Event>, j: nat) returns (i: nat)
    requires Init(s) && Run(s, events).Some? && j <= |events|
    requires StateAt(s, events, j).worker.Locking? && StateAt(s, events, j).worker.task.OnDemand?
    ensures i < j && FoundMissing(s, events, i, j)
    decreases j
  {
    NextState(s, events, j - 1);
    LockingFrom(StateAt(s, events, j - 1), events[j - 1]);
    if StateAt(s, events, j - 1).worker.Locking? {
      i := WaitsOnlyIfMissing(s, events, j - 1);
    } else {
      i := j - 1;
    }
  }

  /** An on-demand task takes the lock, and so fetches, only if its check on pickup found a wanted hash missing. */
  lemma FetchesOnlyIfMissing(s: State, events: seq<Event>, j: nat)
    requires Init(s) && Run(s, events).Some? && j < |events| && events[j] == Fetch(TakeLock)
    ensures StateAt(s, events, j).worker.Locking?
    ensures StateAt(s, events, j).worker.task.OnDemand? ==> exists i: nat :: i < j && FoundMissing(s, events, i, j)
  {
    NextState(s, events, j);
    if StateAt(s, events, j).worker.task.OnDemand? {
      var i := WaitsOnlyIfMissing(s, events, j);
    }
  }

  /** At `i` request `rid`, before it had asked for a fetch, met a wanted hash that is missing. */
  predicate MetMissing(s: State, events: seq<Event>, i: nat, rid: nat)
    requires Run(s, events).Some? && i < |events|
  {
    var at := StateAt(s, events, i);
    && events[i] == At(rid, CheckHash) && rid in at.requests
    && at.requests[rid].pc.Checking? && !at.requests[rid].pc.after
    && exists h :: h in at.requests[rid].wants && h !in at.store
  }

  /** Where a request that wants a fetch comes from. */
  lemma EnqueueingFrom(s: State, e: Event, rid: nat)
    requires Step(s, e).Some?
    requires rid in Step(s, e).value.requests && Step(s, e).value.requests[rid].pc.Enqueueing?
    ensures rid in s.requests
    ensures s.requests[rid].pc.Enqueueing? ||
            (&& e == At(rid, CheckHash) && s.requests[rid].pc.Checking? && !s.requests[rid].pc.after
             && s.requests[rid].pc.k < |s.requests[rid].wants|
             && s.requests[rid].wants[s.requests[rid].pc.k] !in s.store)
  {
    if e.At? {
      RequestShape(s, e.rid, e.action);
    }
  }

  lemma {:induction false} EnqueuesOnlyIfMissing(s: State, events: seq<Event>, j: nat, rid: nat) returns (i: nat)
    requires Init(s) && Run(s, events).Some? && j <= |events|
    requires rid in StateAt(s, events, j).requests && StateAt(s, events, j).requests[rid].pc.Enqueueing?
    ensures i < j && MetMissing(s, events, i, rid)
    decreases j
  {
    NextState(s, events, j - 1);
    EnqueueingFrom(StateAt(s, events, j - 1), events[j - 1], rid);
    if StateAt(s, events, j - 1).requests[rid].pc.Enqueueing? {
      i := EnqueuesOnlyIfMissing(s, events, j - 1, rid);
    } else {
      i := j - 1;
    }
  }

  /** A request asks for a fetch only if its own first check met a missing hash: one that finds all it wants is served
      without a fetch. */
  lemma AsksOnlyIfMissing(s: State, events: seq<Event>, j: nat, rid: nat)
    requires Init(s) && Run(s, events).Some? && j < |events| && events[j] == At(rid, Enqueue)
    ensures exists i: nat :: i < j && MetMissing(s, events, i, rid)
  {
    NextState(s, events, j);
    var i := EnqueuesOnlyIfMissing(s, events, j, rid);
  }

  /** Every task in the queue and at the worker belongs to a request. */
  predicate Known(s: State) {
    && (forall t :: t in s.queue && t.OnDemand? ==> t.rid in s.requests)
    && (s.worker.Rechecking? ==> s.worker.rid in s.requests)
  }

  lemma StepKeepsKnown(s: State, e: Event)
    requires Known(s) && Step(s, e).Some?
    ensures Known(Step(s, e).value)
  {
  }

  lemma {:induction false} KnownAt(s: State, events: seq<Event>, k: nat)
    requires Init(s) && Run(s, events).Some? && k <= |events|
    ensures Known(StateAt(s, events, k))
    decreases k
  {
    if k > 0 {
      KnownAt(s, events, k - 1);
      NextState(s, events, k - 1);
      StepKeepsKnown(StateAt(s, events, k - 1), events[k - 1]);
    }
  }

  predicate FoundAt(s: State, events: seq<Event>, i: nat, rid: nat, k: nat)
    requires Run(s, events).Some? && i < |events|
  {
    var at := StateAt(s, events, i);
    && events[i] == Take(Recheck) && at.worker == Rechecking(rid, k)
    && rid in at.requests && k < |at.requests[rid].wants| && at.requests[rid].wants[k] in at.store
  }

  /** Want number `k` was found by the check on pickup between `p` and `j`. */
  predicate Found(s: State, events: seq<Event>, p: nat, j: nat, rid: nat, k: nat)
    requires Run(s, events).Some? && j <= |events|
  {
    exists i :: p < i < j && FoundAt(s, events, i, rid, k)
  }

  predicate FoundUpTo(s: State, events: seq<Event>, p: nat, j: nat, rid: nat, n: nat)
    requires Run(s, events).Some? && j <= |events|
  {
    forall k: nat :: k < n ==> Found(s, events, p, j, rid, k)
  }

  lemma FoundStays(s: State, events: seq<Event>, p: nat, j: nat, later: nat, rid: nat, n: nat)
    requires Run(s, events).Some? && j <= later <= |events| && FoundUpTo(s, events, p, j, rid, n)
    ensures FoundUpTo(s, events, p, later, rid, n)
  {
    forall k: nat | k < n ensures Found(s, events, p, later, rid, k) {
      assert Found(s, events, p, j, rid, k);
      var i :| p < i < j && FoundAt(s, events, i, rid, k);
      assert p < i < later && FoundAt(s, events, i, rid, k);
    }
  }

  /** How far the check on pickup of a task that has not fetched has come. */
  predicate Progressed(s: State, events: seq<Event>, p: nat, j: nat)
    requires Run(s, events).Some? && j <= |events|
  {
    var now := StateAt(s, events, j);
    match now.worker
    case Rechecking(rid, n) =>
      rid in now.requests && n <= |now.requests[rid].wants| && FoundUpTo(s, events, p, j, rid, n)
    case Finishing(task, _) =>
      task.OnDemand? ==> task.rid in now.requests && FoundUpTo(s, events, p, j, task.rid, |now.requests[task.rid].wants|)
    case _ => !(Started(now.worker) || now.worker.Unlocking?)
  }

  /** How a check on pickup goes on. */
  lemma CheckMoves(s: State, e: Event)
    requires Known(s) && Step(s, e).Some? && s.worker.Rechecking? && e != Take(RecheckFails)
    ensures var s' := Step(s, e).value; var rid, n := s.worker.rid, s.worker.k;
            && rid in s'.requests && s'.requests[rid].wants == s.requests[rid].wants
            && var wants := s.requests[rid].wants;
               || s'.worker == s.worker
               || s'.worker.Locking?
               || (e == Take(Recheck) && n < |wants| && wants[n] in s.store && s'.worker == Rechecking(rid, n + 1))
               || (|wants| <= n && s'.worker == Finishing(OnDemand(rid), None))
  {
    if e.At? {
      RequestShape(s, e.rid, e.action);
    }
  }

  /** How everything else goes on without a pickup and without a lock. */
  lemma OthersMove(s: State, e: Event)
    requires Step(s, e).Some? && !s.worker.Rechecking? && !Started(s.worker) && !s.worker.Unlocking?
    requires e != Take(Pickup) && e != Fetch(TakeLock)
    ensures var s' := Step(s, e).value;
            && SameWants(s, s') && !s'.worker.Rechecking? && !Started(s'.worker) && !s'.worker.Unlocking?
            && (s'.worker.Finishing? ==> s'.worker == s.worker || s'.worker.task.Background?)
  {
    if e.At? {
      RequestShape(s, e.rid, e.action);
    }
  }

  lemma CheckProgress(s: State, events: seq<Event>, p: nat, j: nat)
    requires Run(s, events).Some? && p < j < |events| && Progressed(s, events, p, j)
    requires Known(StateAt(s, events, j)) && StateAt(s, events, j).worker.Rechecking? && events[j] != Take(RecheckFails)
    ensures Progressed(s, events, p, j + 1)
  {
    NextState(s, events, j);
    CheckMoves(StateAt(s, events, j), events[j]);
    var rid, n := StateAt(s, events, j).worker.rid, StateAt(s, events, j).worker.k;
    FoundStays(s, events, p, j, j + 1, rid, n);
    if StateAt(s, events, j + 1).worker == Rechecking(rid, n + 1) {
      assert FoundAt(s, events, j, rid, n);
      assert Found(s, events, p, j + 1, rid, n);
    }
  }

  /** A step other than a pickup, a lock or a failed check keeps what has been found. */
  lemma ProgressStep(s: State, events: seq<Event>, p: nat, j: nat)
    requires Run(s, events).Some? && p < j < |events| && Progressed(s, events, p, j) && Known(StateAt(s, events, j))
    requires events[j] != Take(Pickup) && events[j] != Fetch(TakeLock) && events[j] != Take(RecheckFails)
    ensures Progressed(s, events, p, j + 1)
  {
    var before := StateAt(s, events, j);
    if before.worker.Rechecking? {
      CheckProgress(s, events, p, j);
    } else {
      NextState(s, events, j);
      OthersMove(before, events[j]);
      if before.worker.Finishing? && before.worker.task.OnDemand? {
        FoundStays(s, events, p, j, j + 1, before.worker.task.rid, |before.requests[before.worker.task.rid].wants|);
      }
    }
  }

  lemma {:induction false} ProgressAt(s: State, events: seq<Event>, p: nat, j: nat)
    requires Init(s) && Run(s, events).Some? && p < j <= |events| && events[p] == Take(Pickup)
    requires Without(events, Take(Pickup), p, j) && Without(events, Fetch(TakeLock), p, j)
    requires Without(events, Take(RecheckFails), p, j)
    ensures Progressed(s, events, p, j)
    decreases j
  {
    if j == p + 1 {
      NextState(s, events, p);
      KnownAt(s, events, p);
      KnownAt(s, events, j);
    } else {
      ProgressAt(s, events, p, j - 1);
      KnownAt(s, events, j - 1);
      ProgressStep(s, events, p, j - 1);
    }
  }

  /** An on-demand task that is picked up at `p` and ends at `j` without taking the lock, although its check did not
      fail, has found every hash of its request in the store in between. */
  lemma SkipsOnlyIfFound(s: State, events: seq<Event>, p: nat, j: nat, gcLog: bool)
    requires Init(s) && Run(s, events).Some? && p < j < |events|
    requires events[p] == Take(Pickup) && events[j] == End(EndTask(gcLog))
    requires Without(events, Take(Pickup), p, j) && Without(events, Fetch(TakeLock), p, j)
    requires Without(events, Take(RecheckFails), p, j)
    ensures var now := StateAt(s, events, j);
            now.worker.Finishing? && (now.worker.task.OnDemand? ==>
              && now.worker.task.rid in now.requests
              && FoundUpTo(s, events, p, j, now.worker.task.rid, |now.requests[now.worker.task.rid].wants|))
  {
    ProgressAt(s, events, p, j);
    NextState(s, events, j);
  }

  // ----- how many on-demand fetches are useful -----

  /** At `j` ends an on-demand task that took the lock at some earlier event and leaves its wants satisfied. */
  predicate EndsUseful(s: State, events: seq<Event>, j: nat)
    requires Run(s, events).Some? && j < |events|
  {
    var now := StateAt(s, events, j);
    && events[j].End? && events[j].end.EndTask? && now.worker.Finishing? && now.worker.task.OnDemand?
    && now.worker.task.rid in now.requests && AllIn(now.requests[now.worker.task.rid].wants, now.store)
    && exists l :: 0 <= l < j && events[l] == Fetch(TakeLock) && Without(events, Take(Pickup), l, j)
  }

  /** How many of the first `n` events end such a task. */
  function UsefulEnds(s: State, events: seq<Event>, n: nat): nat
    requires Run(s, events).Some? && n <= |events|
  {
    if n == 0 then 0 else UsefulEnds(s, events, n - 1) + if EndsUseful(s, events, n - 1) then 1 else 0
  }

  /** A task waiting for the lock on demand knows what it misses. */
  predicate Charged(s: State) {
    s.worker.Locking? && s.worker.task.OnDemand? ==> s.worker.missing.Some?
  }

  lemma {:induction false} ChargedAt(s: State, events: seq<Event>, k: nat)
    requires Init(s) && Run(s, events).Some? && k <= |events|
    ensures Charged(StateAt(s, events, k))
    decreases k
  {
    if k > 0 {
      ChargedAt(s, events, k - 1);
      NextState(s, events, k - 1);
      if StateAt(s, events, k).worker.Locking? && StateAt(s, events, k).worker.task.OnDemand? {
        LockingFrom(StateAt(s, events, k - 1), events[k - 1]);
      }
    }
  }

  /** What the worker does from a lock to the next pickup belongs to one task. */
  predicate SameTask(w: Worker, task: Task, missing: Option<Oid>) {
    match w
    case FetchingAll(t, m, _) => t == task && m == missing
    case FetchingOrigin(t, m, _, _) => t == task && m == missing
    case Publishing(t, m, _, _) => t == task && m == missing
    case Unlocking(t, m) => t == task && m == missing
    case Finishing(t, m) => t == task && m == missing
    case Idle => true
    case GcLocking => true
    case Collecting => true
    case _ => false
  }

  lemma StepKeepsTask(s: State, e: Event, task: Task, missing: Option<Oid>)
    requires SameTask(s.worker, task, missing) && Step(s, e).Some? && e != Take(Pickup)
    ensures SameTask(Step(s, e).value.worker, task, missing)
  {
    if e.At? {
      RequestShape(s, e.rid, e.action);
    }
  }

  lemma {:induction false} TaskAt(s: State, events: seq<Event>, l: nat, j: nat)
    requires Run(s, events).Some? && l < j <= |events| && events[l] == Fetch(TakeLock)
    requires Without(events, Take(Pickup), l, j)
    ensures var w := StateAt(s, events, l).worker; w.Locking? && SameTask(StateAt(s, events, j).worker, w.task, w.missing)
    decreases j
  {
    NextState(s, events, j - 1);
    if l + 1 < j {
      TaskAt(s, events, l, j - 1);
      var w := StateAt(s, events, l).worker;
      StepKeepsTask(StateAt(s, events, j - 1), events[j - 1], w.task, w.missing);
    }
  }

  lemma UsefulIsRecorded(s: State, events: seq<Event>, j: nat)
    requires Init(s) && Run(s, events).Some? && j < |events|
    ensures var now, next := StateAt(s, events, j), StateAt(s, events, j + 1);
            |now.useful| + (if EndsUseful(s, events, j) then 1 else 0) <= |next.useful|
  {
    NextState(s, events, j);
    var e := events[j];
    if EndsUseful(s, events, j) {
      var l :| 0 <= l < j && events[l] == Fetch(TakeLock) && Without(events, Take(Pickup), l, j);
      TaskAt(s, events, l, j);
      ChargedAt(s, events, l);
    } else if e.At? {
      RequestShape(StateAt(s, events, j), e.rid, e.action);
    }
  }

  lemma {:induction false} UsefulEndsCounted(s: State, events: seq<Event>, n: nat)
    requires Init(s) && Run(s, events).Some? && n <= |events|
    ensures UsefulEnds(s, events, n) <= |StateAt(s, events, n).useful|
    decreases n
  {
    if n > 0 {
      UsefulEndsCounted(s, events, n - 1);
      UsefulIsRecorded(s, events, n - 1);
    }
  }

  /** The on-demand tasks that fetch and leave their wants satisfied are at most as many as distinct hashes ever wanted. */
  lemma UsefulFetchesBounded(s: State, events: seq<Event>)
    requires Init(s) && (forall e :: e in events ==> KeepsObjects(e)) && Run(s, events).Some?
    ensures UsefulEnds(s, events, |events|) <= |Wanted(Run(s, events).value)|
  {
    UsefulEndsCounted(s, events, |events|);
    LastState(s, events);
    RecordBounded(s, events);
  }

  // ----- how soon a background fetch follows -----

  /** A fetch that started at `t` and has not ended, if there is one at all. */
  predicate Under(s: State, t: int) {
    s.worker.FetchingAll? || s.worker.FetchingOrigin? ==> s.worker.start == t
  }

  lemma StepKeepsUnder(s: State, e: Event, t: int)
    requires Under(s, t) && Step(s, e).Some? && e != Fetch(TakeLock)
    ensures Under(Step(s, e).value, t)
  {
    if e.At? {
      RequestShape(s, e.rid, e.action);
    }
  }

  lemma {:induction false} UnderWay(s: State, events: seq<Event>, i: nat, m: nat)
    requires Run(s, events).Some? && i < m <= |events| && events[i] == Fetch(TakeLock)
    requires Without(events, Fetch(TakeLock), i, m)
    ensures Under(StateAt(s, events, m), StateAt(s, events, i).now)
    decreases m
  {
    NextState(s, events, m - 1);
    if i + 1 < m {
      UnderWay(s, events, i, m - 1);
      StepKeepsUnder(StateAt(s, events, m - 1), events[m - 1], StateAt(s, events, i).now);
    }
  }

  /** A fetch that started at `t` has succeeded; its time is published before the worker does anything else. */
  predicate Succeeded(s: State, t: int) {
    t in s.good || (s.worker.Publishing? && s.worker.ok && s.worker.start == t)
  }

  lemma StepKeepsSucceeded(s: State, e: Event, t: int)
    requires Succeeded(s, t) && Step(s, e).Some?
    ensures Succeeded(Step(s, e).value, t)
  {
    if e.At? {
      RequestShape(s, e.rid, e.action);
    }
  }

  lemma {:induction false} SucceededStays(s: State, events: seq<Event>, m: nat, j: nat, t: int)
    requires Run(s, events).Some? && m <= j <= |events| && Succeeded(StateAt(s, events, m), t)
    ensures Succeeded(StateAt(s, events, j), t)
    decreases j
  {
    if m < j {
      SucceededStays(s, events, m, j - 1, t);
      NextState(s, events, j - 1);
      StepKeepsSucceeded(StateAt(s, events, j - 1), events[j - 1], t);
    }
  }

  lemma {:induction false} TimeAt(s: State, events: seq<Event>, k: nat)
    requires Init(s) && Run(s, events).Some? && k <= |events|
    ensures TimeInv(StateAt(s, events, k))
    decreases k
  {
    if k > 0 {
      TimeAt(s, events, k - 1);
      NextState(s, events, k - 1);
      StepKeepsTime(StateAt(s, events, k - 1), events[k - 1]);
    }
  }

  /** Whoever made it, a fetch that takes the lock at `i` and whose second git command succeeds at `m` keeps every later
      non-forced background fetch from starting within 899 seconds of its start: fifteen minutes, less the truncation of
      the published time to whole seconds. */
  lemma BackgroundFetchesThrottled(s: State, events: seq<Event>, i: nat, m: nat, j: nat)
    requires Init(s) && Run(s, events).Some? && i < m < j < |events|
    requires events[i] == Fetch(TakeLock) && events[m] == Fetch(OriginDone(true)) && Without(events, Fetch(TakeLock), i, m)
    requires events[j] == Fetch(TakeLock)
    ensures StateAt(s, events, j).worker.Locking?
    ensures StateAt(s, events, j).worker.task == Background(false)
            ==> StateAt(s, events, j).now - StateAt(s, events, i).now > 899_000_000_000
  {
    var t := StateAt(s, events, i).now;
    UnderWay(s, events, i, m);
    NextState(s, events, m);
    SucceededStays(s, events, m + 1, j, t);
    NextState(s, events, j);
    TimeAt(s, events, j);
  }

  // ----- the lock -----

  predicate Acquires(e: Event) {
    e == Fetch(TakeLock) || e == End(TakeGcLock) || e == RecoverLock
  }

  /** `e` ends what `acquire` has begun: a fetch, a collection or a recovery. */
  predicate Closes(acquire: Event, e: Event) {
    || (acquire == Fetch(TakeLock) && e == Fetch(Unlock))
    || (acquire == End(TakeGcLock) && e.End? && e.end.Collect?)
    || (acquire == RecoverLock && e.RecoverDone?)
  }

  predicate InFetch(w: Worker) {
    w.FetchingAll? || w.FetchingOrigin? || w.Publishing? || w.Unlocking?
  }

  /** The worker has the lock exactly while it fetches or collects. */
  predicate LockInv(s: State) {
    s.mu.ByWorker? <==> InFetch(s.worker) || s.worker.Collecting?
  }

  lemma StepKeepsLock(s: State, e: Event)
    requires LockInv(s) && Step(s, e).Some?
    ensures LockInv(Step(s, e).value)
  {
    if e.At? {
      RequestShape(s, e.rid, e.action);
    }
  }

  lemma {:induction false} LockAt(s: State, events: seq<Event>, k: nat)
    requires Init(s) && Run(s, events).Some? && k <= |events|
    ensures LockInv(StateAt(s, events, k))
    decreases k
  {
    if k > 0 {
      LockAt(s, events, k - 1);
      NextState(s, events, k - 1);
      StepKeepsLock(StateAt(s, events, k - 1), events[k - 1]);
    }
  }

  /** What `acquire` has begun is still going on. */
  predicate Holds(s: State, acquire: Event) {
    if acquire == Fetch(TakeLock) then InFetch(s.worker)
    else if acquire == End(TakeGcLock) then s.worker.Collecting?
    else s.mu.ByRecovery?
  }

  lemma StepHolds(s: State, e: Event, acquire: Event)
    requires LockInv(s) && Step(s, e).Some? && Acquires(acquire)
    ensures e == acquire ==> Holds(Step(s, e).value, acquire)
    ensures Holds(s, acquire) && !Closes(acquire, e) ==> Holds(Step(s, e).value, acquire) && !Acquires(e)
  {
    if e.At? {
      RequestShape(s, e.rid, e.action);
    }
  }

  lemma {:induction false} HoldsUntilClosed(s: State, events: seq<Event>, i: nat, j: nat)
    requires Init(s) && Run(s, events).Some? && i < j <= |events| && Acquires(events[i])
    requires forall m :: i < m < j ==> !Closes(events[i], events[m])
    ensures Holds(StateAt(s, events, j), events[i])
    decreases j
  {
    if i + 1 < j {
      HoldsUntilClosed(s, events, i, j - 1);
    }
    NextState(s, events, j - 1);
    LockAt(s, events, j - 1);
    StepHolds(StateAt(s, events, j - 1), events[j - 1], events[i]);
  }

  /** Fetches, collections and recoveries exclude each other: after one has taken the lock, none takes it before that one
      has ended. */
  lemma OneAtATime(s: State, events: seq<Event>, i: nat, j: nat)
    requires Init(s) && Run(s, events).Some? && i < j < |events| && Acquires(events[i]) && Acquires(events[j])
    ensures exists m :: i < m < j && Closes(events[i], events[m])
  {
    if forall m :: i < m < j ==> !Closes(events[i], events[m]) {
      HoldsUntilClosed(s, events, i, j);
      NextState(s, events, j);
      LockAt(s, events, j);
      StepHolds(StateAt(s, events, j), events[j], events[i]);
    }
  }

  /** After event `i` has taken the lock, what it has begun has not ended up to `j`. */
  predicate OpenSince(events: seq<Event>, i: nat, j: nat) {
    i < j <= |events| && Acquires(events[i]) && forall m :: i < m < j ==> !Closes(events[i], events[m])
  }

  lemma HoldsFrom(s: State, e: Event, acquire: Event)
    requires Step(s, e).Some? && Acquires(acquire) && Holds(Step(s, e).value, acquire)
    ensures e == acquire || (Holds(s, acquire) && !Closes(acquire, e))
  {
    if e.At? {
      RequestShape(s, e.rid, e.action);
    }
  }

  lemma {:induction false} HeldSince(s: State, events: seq<Event>, j: nat, acquire: Event) returns (i: nat)
    requires Init(s) && Run(s, events).Some? && j <= |events|
    requires Acquires(acquire) && Holds(StateAt(s, events, j), acquire)
    ensures OpenSince(events, i, j) && events[i] == acquire
    decreases j
  {
    NextState(s, events, j - 1);
    HoldsFrom(StateAt(s, events, j - 1), events[j - 1], acquire);
    if events[j - 1] == acquire {
      i := j - 1;
    } else {
      i := HeldSince(s, events, j - 1, acquire);
    }
  }

  lemma WhoChanges(s: State, e: Event) returns (acquire: Event)
    requires Step(s, e).Some?
    ensures Acquires(acquire)
    ensures Step(s, e).value.store != s.store || Step(s, e).value.lastUpdate != s.lastUpdate ==> Holds(s, acquire)
  {
    acquire := if e.Fetch? then Fetch(TakeLock) else if e.End? then End(TakeGcLock) else RecoverLock;
    if e.At? {
      RequestShape(s, e.rid, e.action);
    }
  }

  /** Objects and the published time change only while one of them is going on. */
  lemma ChangesUnderLock(s: State, events: seq<Event>, j: nat)
    requires Init(s) && Run(s, events).Some? && j < |events|
    ensures var now, next := StateAt(s, events, j), StateAt(s, events, j + 1);
            next.store != now.store || next.lastUpdate != now.lastUpdate ==> exists i: nat :: OpenSince(events, i, j)
  {
    NextState(s, events, j);
    var acquire := WhoChanges(StateAt(s, events, j), events[j]);
    if Holds(StateAt(s, events, j), acquire) {
      var i := HeldSince(s, events, j, acquire);
    }
  }
}
