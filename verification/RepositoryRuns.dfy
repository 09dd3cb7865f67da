/** Concrete runs of a managed repository, and the bounds that they show to be tight. */
module RepositoryRuns {
  import opened Clock
  import opened Options
  import opened Repository
  import opened RepositoryTheorems

  /** Which objects `git gc` may remove in which state. */
  type Policy = (State, set<Oid>) -> bool

  const KEEP_ALL: Policy := (s: State, removed: set<Oid>) => removed == {}

  predicate Obeys(p: Policy, s: State, e: Event) {
    e.End? && e.end.Collect? ==> p(s, e.end.removed)
  }

  predicate ObeysAll(p: Policy, s: State, events: seq<Event>)
    decreases |events|
  {
    events != [] ==>
      && Obeys(p, s, events[0])
      && (Step(s, events[0]).Some? ==> ObeysAll(p, Step(s, events[0]).value, events[1..]))
  }

  ghost predicate RunFrom(s: State, p: Policy, events: seq<Event>) {
    Init(s) && Run(s, events).Some? && ObeysAll(p, s, events)
  }

  lemma {:induction false} RunAppend(s: State, p: Policy, events: seq<Event>, e: Event)
    requires Run(s, events).Some? && ObeysAll(p, s, events)
    ensures Run(s, events + [e]) == Step(Run(s, events).value, e)
    ensures Obeys(p, Run(s, events).value, e) ==> ObeysAll(p, s, events + [e])
    decreases |events|
  {
    if events == [] {
      assert [e][1..] == [] && [] + [e] == [e];
    } else {
      assert (events + [e])[0] == events[0] && (events + [e])[1..] == events[1..] + [e];
      RunAppend(Step(s, events[0]).value, p, events[1..], e);
    }
  }

  /** Keeping all objects as a policy and as a property of the events. */
  lemma {:induction false} KeepAllKeeps(s: State, events: seq<Event>)
    requires Run(s, events).Some?
    ensures ObeysAll(KEEP_ALL, s, events) <==> forall e :: e in events ==> KeepsObjects(e)
    decreases |events|
  {
    if events != [] {
      KeepAllKeeps(Step(s, events[0]).value, events[1..]);
      assert Obeys(KEEP_ALL, s, events[0]) <==> KeepsObjects(events[0]);
      assert forall e :: e in events <==> e == events[0] || e in events[1..];
    }
  }

  /** A run from `from` together with the state it ends in. */
  datatype Trace = Trace(from: State, policy: Policy, events: seq<Event>, state: State)

  ghost predicate Traced(t: Trace) {
    RunFrom(t.from, t.policy, t.events) && Run(t.from, t.events) == Some(t.state)
  }

  ghost predicate SameStart(t: Trace, u: Trace) {
    u.from == t.from && u.policy == t.policy
  }

  lemma Extend(t: Trace, e: Event) returns (u: Trace)
    requires Traced(t) && Step(t.state, e).Some? && Obeys(t.policy, t.state, e)
    ensures Traced(u) && SameStart(t, u) && u.events == t.events + [e] && u.state == Step(t.state, e).value
  {
    RunAppend(t.from, t.policy, t.events, e);
    u := t.(events := t.events + [e], state := Step(t.state, e).value);
  }

  const FRESH: State := State(0, map[], {}, 0, Free, [], Idle, map[], [], [])

  lemma Begin(from: State, p: Policy) returns (t: Trace)
    requires Init(from)
    ensures Traced(t) && t.from == from && t.policy == p && t.state == from
  {
    t := Trace(from, p, [], from);
  }

  /** The worker takes the only queued background task and gets the lock. */
  lemma StartsFetch(t: Trace, must: bool) returns (u: Trace)
    requires Traced(t) && t.state.worker.Idle? && t.state.mu.Free? && t.state.queue == [Background(must)]
    requires must || FETCH_INTERVAL <= t.state.now - t.state.lastUpdate * SECOND
    ensures Traced(u) && SameStart(t, u)
    ensures u.state == t.state.(queue := [], mu := ByWorker, worker := FetchingAll(Background(must), None, t.state.now))
  {
    assert [Background(must)][1..] == [];
    u := Extend(t, Take(Pickup));
    u := Extend(u, Take(Decide));
    u := Extend(u, Fetch(TakeLock));
  }

  /** The first git command brings nothing; the second one has listed the upstream heads. */
  lemma ListsHeads(t: Trace) returns (u: Trace)
    requires Traced(t) && t.state.worker.FetchingAll?
    ensures Traced(u) && SameStart(t, u)
    ensures var w := t.state.worker;
            u.state == t.state.(worker := FetchingOrigin(w.task, w.missing, w.start, Some(t.state.born.Keys)))
  {
    u := Extend(t, Fetch(AllDone({})));
    assert t.state.store + {} == t.state.store;
    u := Extend(u, Fetch(ListHeads));
  }

  lemma EndsFetch(t: Trace, gcLog: bool) returns (u: Trace)
    requires Traced(t) && t.state.worker.Publishing? && t.state.worker.task.Background?
    ensures Traced(u) && SameStart(t, u)
    ensures var w := t.state.worker;
            u.state == t.state.(worker := if gcLog then GcLocking else Idle, mu := Free,
                                lastUpdate := if w.ok then Unix(w.start) else t.state.lastUpdate,
                                good := if w.ok then t.state.good + [w.start] else t.state.good)
  {
    u := Extend(t, Fetch(Publish));
    u := Extend(u, Fetch(Unlock));
    u := Extend(u, End(EndTask(gcLog)));
  }

  /** A fetch forced at time `now`, up to the listing of the upstream heads. */
  lemma ForcedFetch(from: State, p: Policy) returns (t: Trace)
    requires Init(from)
    ensures Traced(t) && t.from == from && t.policy == p
    ensures t.state == from.(mu := ByWorker,
                             worker := FetchingOrigin(Background(true), None, from.now, Some(from.born.Keys)))
  {
    t := Begin(from, p);
    t := Extend(t, Ask(true));
    t := StartsFetch(t, true);
    t := ListsHeads(t);
  }

  // ----- refused without an error -----

  /** A request ends refused and without an error exactly when the check after its fetch meets a missing hash. */
  lemma NilErrorExactly(s: State, rid: nat, a: RequestAction)
    requires RequestStep(s, rid, a).Some?
    ensures RequestStep(s, rid, a).value.requests[rid].pc == Done(Refused(None)) <==>
            && a.CheckHash?
            && var r := s.requests[rid]; r.pc.Checking? && r.pc.after && r.pc.k < |r.wants| && r.wants[r.pc.k] !in s.store
  {
  }

  /** A request for the hash `x`, not found; the fetch made for it is about to run. */
  lemma AsksForMissing(p: Policy) returns (t: Trace)
    ensures Traced(t) && t.policy == p
    ensures t.state == FRESH.(requests := map[0 := Request(["x"], Waiting)], worker := Locking(OnDemand(0), Some("x")))
  {
    t := Begin(FRESH, p);
    t := Extend(t, Arrive(0, ["x"]));
    t := Extend(t, At(0, CheckHash));
    t := Extend(t, At(0, Enqueue));
    t := Extend(t, Take(Pickup));
    assert [OnDemand(0)][1..] == [];
    t := Extend(t, Take(Recheck));
    assert t.state.requests == map[0 := Request(["x"], Waiting)];
  }

  lemma EndsUnreported(t: Trace) returns (u: Trace)
    requires Traced(t) && t.state.worker == Unlocking(OnDemand(0), Some("x")) && "x" !in t.state.store
    requires 0 in t.state.requests && t.state.requests[0] == Request(["x"], Waiting)
    ensures Traced(u) && SameStart(t, u) && u.state.good == t.state.good && 0 in u.state.requests
    ensures u.state.requests[0] == Request(["x"], Done(Refused(None)))
  {
    u := Extend(t, Fetch(Unlock));
    u := Extend(u, End(EndTask(false)));
    u := Extend(u, At(0, Resume));
    u := Extend(u, At(0, CheckHash));
  }

  /** The fetch fails, and the request that asked for it is told nothing. */
  lemma FailedFetchGoesUnreported(p: Policy) returns (t: Trace)
    ensures Traced(t) && t.policy == p && t.state.good == [] && 0 in t.state.requests
    ensures t.state.requests[0] == Request(["x"], Done(Refused(None)))
  {
    t := AsksForMissing(p);
    t := Extend(t, Fetch(TakeLock));
    t := Extend(t, Fetch(AllDone({})));
    t := Extend(t, Fetch(OriginDone(false)));
    t := Extend(t, Fetch(Publish));
    t := EndsUnreported(t);
  }

  // ----- the first want only -----

  /** After a successful fetch on demand the first want of its request is in the store. */
  lemma SuccessBringsFirstWant(s: State, rid: nat)
    requires s.worker.FetchingOrigin? && s.worker.task == OnDemand(rid) && rid in s.requests && s.requests[rid].wants != []
    ensures Step(s, Fetch(OriginDone(true))).Some? ==> s.requests[rid].wants[0] in s.store
  {
    assert Asked(s, s.worker.task) == {s.requests[rid].wants[0]};
  }

  /** A request for the hashes `x` and `y`; the fetch made for it is about to run. */
  lemma AsksForTwo() returns (t: Trace)
    ensures Traced(t)
    ensures t.state == FRESH.(now := SECOND, requests := map[0 := Request(["x", "y"], Waiting)],
                              worker := Locking(OnDemand(0), Some("x")))
  {
    t := Begin(FRESH.(now := SECOND), KEEP_ALL);
    t := Extend(t, Arrive(0, ["x", "y"]));
    t := Extend(t, At(0, CheckHash));
    t := Extend(t, At(0, Enqueue));
    t := Extend(t, Take(Pickup));
    assert [OnDemand(0)][1..] == [];
    t := Extend(t, Take(Recheck));
    assert t.state.requests == map[0 := Request(["x", "y"], Waiting)];
  }

  /** Its fetch succeeds with the first want alone. */
  lemma FetchesOne(t: Trace) returns (u: Trace)
    requires Traced(t) && t.state == FRESH.(now := SECOND, requests := map[0 := Request(["x", "y"], Waiting)],
                                            worker := Locking(OnDemand(0), Some("x")))
    ensures Traced(u) && u.state.store == {"x"} && u.state.lastUpdate == 1
    ensures u.state.requests == map[0 := Request(["x", "y"], Waiting)]
    ensures u.state.worker == Unlocking(OnDemand(0), Some("x"))
  {
    u := Extend(t, Fetch(TakeLock));
    u := Extend(u, Fetch(AllDone({})));
    u := Extend(u, Fetch(ListHeads));
    u := Extend(u, Fetch(Receive({"x"})));
    u := Extend(u, Fetch(OriginDone(true)));
    u := Extend(u, Fetch(Publish));
  }

  /** A fetch that succeeds need not bring the second want: the request is refused all the same, and without an error. */
  lemma SecondWantStaysMissing() returns (t: Trace)
    ensures Traced(t) && t.state.lastUpdate == 1 && 0 in t.state.requests
    ensures t.state.requests[0] == Request(["x", "y"], Done(Refused(None)))
  {
    t := AsksForTwo();
    t := FetchesOne(t);
    t := Extend(t, Fetch(Unlock));
    t := Extend(t, End(EndTask(false)));
    t := Extend(t, At(0, Resume));
    t := Extend(t, At(0, CheckHash));
    t := Extend(t, At(0, CheckHash));
  }

  // ----- fifteen minutes -----

  const PAUSE: seq<Event> := [Fetch(OriginDone(true)), Fetch(Publish), Fetch(Unlock), End(EndTask(false)),
                              Tick(899_000_000_001), Ask(false), Take(Pickup), Take(Decide)]

  /** A forced fetch is about to start at the very end of a second. */
  lemma AboutToFetch() returns (t: Trace)
    ensures Traced(t) && t.policy == KEEP_ALL && Step(t.state, Fetch(TakeLock)).Some?
    ensures t.state == FRESH.(now := 1000 * SECOND - 1, worker := Locking(Background(true), None))
  {
    t := Begin(FRESH.(now := 1000 * SECOND - 1), KEEP_ALL);
    t := Extend(t, Ask(true));
    t := Extend(t, Take(Pickup));
    assert [Background(true)][1..] == [];
    t := Extend(t, Take(Decide));
  }

  lemma Waits(t: Trace) returns (u: Trace)
    requires Traced(t) && t.state.worker.Idle? && t.state.mu.Free? && t.state.queue == []
    requires t.state.now == 1000 * SECOND - 1 && t.state.lastUpdate == 999
    ensures Traced(u) && u.from == t.from && u.events == t.events + PAUSE[4..]
    ensures u.state.worker == Locking(Background(false), None) && u.state.mu.Free? && u.state.now == 1899 * SECOND
  {
    u := Extend(t, Tick(899_000_000_001));
    u := Extend(u, Ask(false));
    u := Extend(u, Take(Pickup));
    u := Extend(u, Take(Decide));
    assert t.events + [PAUSE[4]] + [PAUSE[5]] + [PAUSE[6]] + [PAUSE[7]] == t.events + PAUSE[4..];
  }

  lemma Publishes(t: Trace) returns (u: Trace)
    requires Traced(t) && t.state.queue == [] && t.state.mu == ByWorker && t.state.now == 1000 * SECOND - 1
    requires t.state.worker == FetchingOrigin(Background(true), None, 1000 * SECOND - 1, Some({}))
    ensures Traced(u) && u.from == t.from && u.events == t.events + [PAUSE[0], PAUSE[1]]
    ensures u.state.worker == Unlocking(Background(true), None) && u.state.mu == ByWorker && u.state.queue == []
    ensures u.state.now == 1000 * SECOND - 1 && u.state.lastUpdate == 999
  {
    u := Extend(t, Fetch(OriginDone(true)));
    u := Extend(u, Fetch(Publish));
  }

  /** The second git command of the fetch succeeds, and its task ends. */
  lemma Succeeds(t: Trace) returns (u: Trace)
    requires Traced(t) && t.policy == KEEP_ALL && t.state.store == {} && t.state.queue == [] && t.state.mu == ByWorker
    requires t.state.worker == FetchingOrigin(Background(true), None, 1000 * SECOND - 1, Some({}))
    requires t.state.now == 1000 * SECOND - 1
    ensures Traced(u) && u.from == t.from && u.events == t.events + PAUSE[..4]
    ensures u.state.worker.Idle? && u.state.mu.Free? && u.state.queue == []
    ensures u.state.now == 1000 * SECOND - 1 && u.state.lastUpdate == 999
  {
    u := Publishes(t);
    u := Extend(u, Fetch(Unlock));
    u := Extend(u, End(EndTask(false)));
    assert t.events + [PAUSE[0], PAUSE[1]] + [PAUSE[2]] + [PAUSE[3]] == t.events + PAUSE[..4];
  }

  /** Then a background fetch is asked for and decided on as soon as possible. */
  lemma Pauses(t: Trace) returns (u: Trace)
    requires Traced(t) && t.policy == KEEP_ALL && t.state.store == {} && t.state.queue == [] && t.state.mu == ByWorker
    requires t.state.worker == FetchingOrigin(Background(true), None, 1000 * SECOND - 1, Some({}))
    requires t.state.now == 1000 * SECOND - 1
    ensures Traced(u) && u.from == t.from && u.events == t.events + PAUSE
    ensures u.state.worker == Locking(Background(false), None) && u.state.mu.Free? && u.state.now == 1899 * SECOND
  {
    u := Succeeds(t);
    u := Waits(u);
    assert t.events + PAUSE[..4] + PAUSE[4..] == t.events + PAUSE;
  }

  /** The 899 seconds cannot be improved: a fetch that starts at the end of `t`, in the last nanosecond of a second, and
      succeeds is followed by a non-forced one that starts at the end of `u`, 899 seconds and one nanosecond later. */
  lemma ThrottleIsTight() returns (t: Trace, u: Trace)
    ensures Traced(t) && Traced(u) && u.from == t.from
    ensures u.events == t.events + [Fetch(TakeLock), Fetch(AllDone({})), Fetch(ListHeads)] + PAUSE
    ensures Step(t.state, Fetch(TakeLock)).Some? && Step(u.state, Fetch(TakeLock)).Some?
    ensures u.state.worker.task == Background(false) && u.state.now - t.state.now == 899_000_000_001
  {
    t := AboutToFetch();
    u := Extend(t, Fetch(TakeLock));
    u := Extend(u, Fetch(AllDone({})));
    assert u.state.store == {} && u.state.born.Keys == {};
    u := Extend(u, Fetch(ListHeads));
    assert t.events + [Fetch(TakeLock)] + [Fetch(AllDone({}))] + [Fetch(ListHeads)]
           == t.events + [Fetch(TakeLock), Fetch(AllDone({})), Fetch(ListHeads)];
    u := Pauses(u);
  }

  // ----- freshness -----

  /** In every run without removal, what was reachable upstream before the published second plus `d` is in the store. */
  ghost predicate FreshUpTo(d: int) {
    forall s, events, o :: RunFrom(s, KEEP_ALL, events) && o in Run(s, events).value.born ==>
      Run(s, events).value.born[o] < Run(s, events).value.lastUpdate * SECOND + d ==> o in Run(s, events).value.store
  }

  /** An object that appears upstream in the nanosecond in which a fetch started, but after its listing, is missed. */
  lemma MissesTheStart() returns (t: Trace)
    ensures Traced(t) && t.policy == KEEP_ALL
    ensures "x" in t.state.born && t.state.born["x"] == t.state.lastUpdate * SECOND && "x" !in t.state.store
  {
    t := ForcedFetch(FRESH.(now := 1000 * SECOND), KEEP_ALL);
    t := Extend(t, UpstreamGains("x"));
    t := Extend(t, Fetch(OriginDone(true)));
    t := Extend(t, Fetch(Publish));
  }

  /** The published second is the last moment up to which the store is known to be complete. */
  lemma FreshExactly(d: int)
    ensures FreshUpTo(d) <==> d <= 0
  {
    if d <= 0 {
      forall s: State, events: seq<Event>, o: Oid |
        RunFrom(s, KEEP_ALL, events) && o in Run(s, events).value.born
        ensures Run(s, events).value.born[o] < Run(s, events).value.lastUpdate * SECOND + d ==> o in Run(s, events).value.store
      {
        KeepAllKeeps(s, events);
        StoreIsFresh(s, events, o);
      }
    } else {
      var t := MissesTheStart();
      assert RunFrom(t.from, KEEP_ALL, t.events);
    }
  }
}
