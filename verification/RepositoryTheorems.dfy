/** What a managed repository keeps over all runs. */
module RepositoryTheorems {
  import opened Clock
  import opened Options
  import opened Repository

  // ----- time: holds whatever `git gc` removes -----

  predicate Started(w: Worker) {
    w.FetchingAll? || w.FetchingOrigin? || w.Publishing?
  }

  predicate TimeInv(s: State) {
    && 0 <= s.lastUpdate && s.lastUpdate * SECOND <= s.now
    && (forall o :: o in s.born ==> s.born[o] <= s.now)
    && (forall g :: g in s.good ==> g < (s.lastUpdate + 1) * SECOND)
    && (Started(s.worker) ==> s.lastUpdate * SECOND <= s.worker.start <= s.now)
    && (s.worker.Locking? && s.worker.task == Background(false) ==> FETCH_INTERVAL <= s.now - s.lastUpdate * SECOND)
    && (Started(s.worker) && s.worker.task == Background(false)
        ==> FETCH_INTERVAL <= s.worker.start - s.lastUpdate * SECOND)
  }

  lemma UnixBounds(t: int)
    ensures Unix(t) * SECOND <= t < (Unix(t) + 1) * SECOND
  {
  }

  /** A step that leaves the clock, the published time and the fetch history alone. */
  predicate SameTimes(s: State, s': State) {
    s'.now == s.now && s'.born == s.born && s'.lastUpdate == s.lastUpdate && s'.good == s.good
  }

  lemma RequestKeepsTime(s: State, rid: nat, a: RequestAction)
    requires RequestStep(s, rid, a).Some?
    ensures var s' := RequestStep(s, rid, a).value; SameTimes(s, s') && s'.worker == s.worker
  {
  }

  lemma FetchKeepsTime(s: State, a: FetchAction)
    requires TimeInv(s) && FetchStep(s, a).Some?
    ensures var s' := FetchStep(s, a).value; TimeInv(s') && s.lastUpdate <= s'.lastUpdate && s.good <= s'.good
  {
    if a.Publish? {
      UnixBounds(s.worker.start);
      var s' := FetchStep(s, a).value;
      assert s.lastUpdate <= Unix(s.worker.start);
      forall g | g in s'.good ensures g < (s'.lastUpdate + 1) * SECOND {
        assert g in s.good || g == s.worker.start;
      }
    }
  }

  lemma StepKeepsTime(s: State, e: Event)
    requires TimeInv(s) && Step(s, e).Some?
    ensures var s' := Step(s, e).value; TimeInv(s') && s.lastUpdate <= s'.lastUpdate && s.good <= s'.good
  {
    match e {
      case At(rid, a) => RequestKeepsTime(s, rid, a);
      case Fetch(a) => FetchKeepsTime(s, a);
      case _ =>
    }
  }

  lemma {:induction false} RunKeepsTime(s: State, events: seq<Event>)
    requires TimeInv(s) && Run(s, events).Some?
    ensures TimeInv(Run(s, events).value) && s.lastUpdate <= Run(s, events).value.lastUpdate
    ensures s.good <= Run(s, events).value.good
    decreases |events|
  {
    if events != [] {
      StepKeepsTime(s, events[0]);
      RunKeepsTime(Step(s, events[0]).value, events[1..]);
    }
  }

  /** The published update time never goes back. */
  lemma LastUpdateMonotone(s: State, before: seq<Event>, after: seq<Event>)
    requires Init(s) && Run(s, before).Some? && Run(Run(s, before).value, after).Some?
    ensures Run(s, before).value.lastUpdate <= Run(Run(s, before).value, after).value.lastUpdate
  {
    RunKeepsTime(s, before);
    RunKeepsTime(Run(s, before).value, after);
  }

  // ----- the store: holds while nothing is removed -----

  predicate HasUntil(s: State, t: int, objects: set<Oid>) {
    forall o :: o in s.born && s.born[o] < t ==> o in objects
  }

  function Missing(w: Worker): (m: Option<Oid>)
    ensures m.Some? ==> !w.Idle? && !w.Rechecking? && !w.Deciding? && !w.GcLocking? && !w.Collecting?
  {
    match w
    case Locking(_, missing) => missing
    case FetchingAll(_, missing, _) => missing
    case FetchingOrigin(_, missing, _, _) => missing
    case Publishing(_, missing, _, _) => missing
    case Unlocking(_, missing) => missing
    case Finishing(_, missing) => missing
    case _ => None
  }

  predicate Distinct(xs: seq<Oid>) {
    forall i, j :: 0 <= i < j < |xs| ==> xs[i] != xs[j]
  }

  /** Every hash that any request has ever wanted. */
  function Wanted(s: State): set<Oid> {
    set rid, k | rid in s.requests && 0 <= k < |s.requests[rid].wants| :: s.requests[rid].wants[k]
  }

  predicate StoreInv(s: State) {
    && HasUntil(s, s.lastUpdate * SECOND, s.store)
    && (s.worker.FetchingOrigin? && s.worker.listed.Some? ==> HasUntil(s, s.worker.start, s.worker.listed.value))
    && (s.worker.Publishing? && s.worker.ok ==> HasUntil(s, s.worker.start, s.store))
    && Distinct(s.useful)
    && (forall h :: h in s.useful ==> h in s.store && h in Wanted(s))
    && (Missing(s.worker).Some? ==> Missing(s.worker).value !in s.useful && Missing(s.worker).value in Wants(s, s.worker.task))
  }

  predicate KeepsObjects(e: Event) {
    e.End? && e.end.Collect? ==> e.end.removed == {}
  }

  /** Requests keep their wants. */
  predicate SameWants(s: State, s': State) {
    forall rid :: rid in s.requests ==> rid in s'.requests && s'.requests[rid].wants == s.requests[rid].wants
  }

  lemma WantedGrows(s: State, s': State)
    requires SameWants(s, s')
    ensures Wanted(s) <= Wanted(s')
  {
    forall h | h in Wanted(s) ensures h in Wanted(s') {
      var rid, k :| rid in s.requests && 0 <= k < |s.requests[rid].wants| && s.requests[rid].wants[k] == h;
      assert s'.requests[rid].wants[k] == h;
    }
  }

  /** A request changes nothing but its own program counter and the queue. */
  lemma RequestShape(s: State, rid: nat, a: RequestAction)
    requires RequestStep(s, rid, a).Some?
    ensures var s' := RequestStep(s, rid, a).value;
            && rid in s.requests && rid in s'.requests && s'.requests == s.requests[rid := s'.requests[rid]]
            && s'.requests[rid].wants == s.requests[rid].wants
            && s'.(requests := s.requests, queue := s.queue) == s
  {
  }

  lemma RequestKeepsStore(s: State, rid: nat, a: RequestAction)
    requires StoreInv(s) && RequestStep(s, rid, a).Some?
    ensures StoreInv(RequestStep(s, rid, a).value)
  {
    RequestShape(s, rid, a);
    WantedGrows(s, RequestStep(s, rid, a).value);
  }

  lemma PickupKeepsStore(s: State, a: PickupAction)
    requires StoreInv(s) && PickupStep(s, a).Some?
    ensures StoreInv(PickupStep(s, a).value)
  {
    var s' := PickupStep(s, a).value;
    WantedGrows(s, s');
  }

  lemma FetchKeepsStore(s: State, a: FetchAction)
    requires TimeInv(s) && StoreInv(s) && FetchStep(s, a).Some?
    ensures StoreInv(FetchStep(s, a).value)
  {
    var s' := FetchStep(s, a).value;
    WantedGrows(s, s');
    if a.Publish? {
      UnixBounds(s.worker.start);
    }
  }

  lemma EndKeepsStore(s: State, a: EndAction)
    requires StoreInv(s) && EndStep(s, a).Some? && (a.Collect? ==> a.removed == {})
    ensures StoreInv(EndStep(s, a).value)
  {
    var s' := EndStep(s, a).value;
    WantedGrows(s, s');
    if s'.useful != s.useful {
      var rid, h := s.worker.task.rid, s.worker.missing.value;
      var k :| 0 <= k < |s.requests[rid].wants| && s.requests[rid].wants[k] == h;
      assert s'.requests[rid].wants[k] == h;
    }
  }

  lemma StepKeepsStore(s: State, e: Event)
    requires TimeInv(s) && StoreInv(s) && KeepsObjects(e) && Step(s, e).Some?
    ensures StoreInv(Step(s, e).value)
  {
    var s' := Step(s, e).value;
    match e {
      case At(rid, a) => RequestKeepsStore(s, rid, a);
      case Take(a) => PickupKeepsStore(s, a);
      case Fetch(a) => FetchKeepsStore(s, a);
      case End(a) => EndKeepsStore(s, a);
      case _ =>
        WantedGrows(s, s');
    }
  }

  lemma {:induction false} RunKeepsStore(s: State, events: seq<Event>)
    requires TimeInv(s) && StoreInv(s) && (forall e :: e in events ==> KeepsObjects(e)) && Run(s, events).Some?
    ensures TimeInv(Run(s, events).value) && StoreInv(Run(s, events).value)
    decreases |events|
  {
    if events != [] {
      StepKeepsTime(s, events[0]);
      StepKeepsStore(s, events[0]);
      RunKeepsStore(Step(s, events[0]).value, events[1..]);
    }
  }

  lemma InitIsInv(s: State)
    requires Init(s)
    ensures TimeInv(s) && StoreInv(s)
  {
  }

  /** Everything that was reachable upstream before the published second is in the local store. */
  lemma StoreIsFresh(s: State, events: seq<Event>, o: Oid)
    requires Init(s) && (forall e :: e in events ==> KeepsObjects(e)) && Run(s, events).Some?
    ensures var s' := Run(s, events).value;
            o in s'.born && s'.born[o] < s'.lastUpdate * SECOND ==> o in s'.store
  {
    InitIsInv(s);
    RunKeepsStore(s, events);
  }

  lemma {:induction false} DistinctFits(xs: seq<Oid>, pool: set<Oid>)
    requires Distinct(xs) && forall x :: x in xs ==> x in pool
    ensures |xs| <= |pool|
  {
    if xs != [] {
      DistinctFits(xs[1..], pool - {xs[0]});
    }
  }

  /** Each recorded hash is wanted by some request, and no hash is recorded twice. */
  lemma RecordBounded(s: State, events: seq<Event>)
    requires Init(s) && (forall e :: e in events ==> KeepsObjects(e)) && Run(s, events).Some?
    ensures var s' := Run(s, events).value; |s'.useful| <= |Wanted(s')|
  {
    InitIsInv(s);
    RunKeepsStore(s, events);
    var s' := Run(s, events).value;
    DistinctFits(s'.useful, Wanted(s'));
  }
}
