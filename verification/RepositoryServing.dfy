/** When is every upload-pack started with all its wants in the local store? */
module RepositoryServing {
  import opened Options
  import opened Repository
  import opened RepositoryRuns

  predicate CanServe(s: State, rid: nat) {
    Step(s, At(rid, StartServe)).Some?
  }

  /** Whenever the upload-pack of a request may start, all its wants are in the local store. */
  ghost predicate ServesComplete(p: Policy) {
    forall s, events, rid :: RunFrom(s, p, events) && CanServe(Run(s, events).value, rid)
                             ==> AllIn(Run(s, events).value.requests[rid].wants, Run(s, events).value.store)
  }

  function Elements(xs: seq<Oid>): set<Oid> {
    set x | x in xs
  }

  /** The hashes a request relies on: found by the check under way and not to be looked up again, or all of them
      from the end of the check to the start of the upload-pack. */
  function Exposed(r: Request): set<Oid> {
    match r.pc
    case Checking(_, k) => if k <= |r.wants| then Elements(r.wants[..k]) - Elements(r.wants[k..]) else {}
    case Submitting => Elements(r.wants)
    case ServeQueued => Elements(r.wants)
    case _ => {}
  }

  /** Removing these objects takes a hash from a request that relies on it. */
  predicate Robs(s: State, removed: set<Oid>, rid: nat) {
    rid in s.requests && Exposed(s.requests[rid]) * removed != {}
  }

  /** Wherever `git gc` can be at work, the policy lets it remove nothing that a request relies on. */
  ghost predicate Spares(p: Policy) {
    forall s, events, removed, rid ::
      RunFrom(s, p, events) && Run(s, events).value.worker.Collecting? && p(Run(s, events).value, removed)
      ==> !Robs(Run(s, events).value, removed, rid)
  }

  // ----- sparing is enough -----

  predicate RequestOk(r: Request, store: set<Oid>) {
    Exposed(r) <= store && (r.pc.Checking? ==> r.pc.k <= |r.wants|)
  }

  predicate ServeInv(s: State) {
    forall rid :: rid in s.requests ==> RequestOk(s.requests[rid], s.store)
  }

  lemma OneFound(wants: seq<Oid>, k: nat)
    requires k < |wants|
    ensures Elements(wants[..k + 1]) == Elements(wants[..k]) + {wants[k]}
    ensures Elements(wants[k..]) == Elements(wants[k + 1..]) + {wants[k]}
  {
    assert wants[..k + 1] == wants[..k] + [wants[k]];
    assert wants[k..] == [wants[k]] + wants[k + 1..];
  }

  /** A hash that is found, or the end of the check, keeps a request in order. */
  lemma CheckStaysOk(r: Request, store: set<Oid>)
    requires RequestOk(r, store) && r.pc.Checking?
    ensures var k := r.pc.k;
            if k < |r.wants| then r.wants[k] in store ==> RequestOk(r.(pc := r.pc.(k := k + 1)), store)
            else RequestOk(r.(pc := Submitting), store)
  {
    var k := r.pc.k;
    if k < |r.wants| {
      OneFound(r.wants, k);
    } else {
      assert r.wants[..k] == r.wants && r.wants[k..] == [];
    }
  }

  /** A request gets past its checks only with what it has found in the store. */
  lemma RequestStaysOk(s: State, rid: nat, a: RequestAction)
    requires RequestStep(s, rid, a).Some? && RequestOk(s.requests[rid], s.store)
    ensures var s' := RequestStep(s, rid, a).value;
            && s'.store == s.store && rid in s'.requests && RequestOk(s'.requests[rid], s.store)
            && s'.requests == s.requests[rid := s'.requests[rid]]
  {
    if a.CheckHash? {
      CheckStaysOk(s.requests[rid], s.store);
    }
  }

  lemma CollectStaysOk(r: Request, store: set<Oid>, removed: set<Oid>)
    requires RequestOk(r, store) && Exposed(r) * removed == {}
    ensures RequestOk(r, store - removed)
  {
    forall h | h in Exposed(r) ensures h in store - removed {
      assert h !in Exposed(r) * removed;
    }
  }

  /** The store only grows, and requests stay as they are or have nothing to rely on. */
  predicate Mild(s: State, s': State) {
    && s.store <= s'.store
    && forall rid :: rid in s'.requests ==>
         (rid in s.requests && s'.requests[rid] == s.requests[rid]) || s'.requests[rid].pc.Woken?
         || s'.requests[rid].pc == Checking(false, 0)
  }

  lemma OtherStepsMild(s: State, e: Event)
    requires Step(s, e).Some? && !e.At? && !(e.End? && e.end.Collect?)
    ensures Mild(s, Step(s, e).value)
  {
  }

  lemma MildKeepsServe(s: State, s': State)
    requires ServeInv(s) && Mild(s, s')
    ensures ServeInv(s')
  {
    forall rid | rid in s'.requests ensures RequestOk(s'.requests[rid], s'.store) {
      if rid in s.requests {
        assert RequestOk(s.requests[rid], s.store);
      }
    }
  }

  lemma CollectKeepsServe(s: State, removed: set<Oid>)
    requires ServeInv(s) && Step(s, End(Collect(removed))).Some? && forall rid :: !Robs(s, removed, rid)
    ensures ServeInv(Step(s, End(Collect(removed))).value)
  {
    forall rid | rid in s.requests ensures RequestOk(s.requests[rid], s.store - removed) {
      assert RequestOk(s.requests[rid], s.store);
      assert !Robs(s, removed, rid);
      CollectStaysOk(s.requests[rid], s.store, removed);
    }
  }

  lemma RequestKeepsServe(s: State, rid: nat, a: RequestAction)
    requires ServeInv(s) && RequestStep(s, rid, a).Some?
    ensures ServeInv(RequestStep(s, rid, a).value)
  {
    assert RequestOk(s.requests[rid], s.store);
    RequestStaysOk(s, rid, a);
    var s' := RequestStep(s, rid, a).value;
    forall q | q in s'.requests ensures RequestOk(s'.requests[q], s'.store) {
      assert q != rid ==> RequestOk(s.requests[q], s.store);
    }
  }

  lemma StepKeepsServe(s: State, e: Event)
    requires ServeInv(s) && Step(s, e).Some?
    requires e.End? && e.end.Collect? ==> forall rid :: !Robs(s, e.end.removed, rid)
    ensures ServeInv(Step(s, e).value)
  {
    if e.At? {
      RequestKeepsServe(s, e.rid, e.action);
    } else if e.End? && e.end.Collect? {
      CollectKeepsServe(s, e.end.removed);
    } else {
      OtherStepsMild(s, e);
      MildKeepsServe(s, Step(s, e).value);
    }
  }

  /** The last step of a run. */
  lemma {:induction false} Peel(s: State, p: Policy, events: seq<Event>, n: nat)
    requires Run(s, events).Some? && ObeysAll(p, s, events) && |events| == n + 1
    ensures Run(s, events[..n]).Some? && ObeysAll(p, s, events[..n])
    ensures Obeys(p, Run(s, events[..n]).value, events[n])
    ensures Step(Run(s, events[..n]).value, events[n]) == Run(s, events)
    decreases n
  {
    if n > 0 {
      Peel(Step(s, events[0]).value, p, events[1..], n - 1);
      assert events[1..][..n - 1] == events[..n][1..];
    }
  }

  lemma {:induction false} SparingKeepsServe(s: State, p: Policy, events: seq<Event>)
    requires Spares(p) && RunFrom(s, p, events)
    ensures ServeInv(Run(s, events).value)
    decreases |events|
  {
    if events != [] {
      var n := |events| - 1;
      Peel(s, p, events, n);
      SparingKeepsServe(s, p, events[..n]);
      StepKeepsServe(Run(s, events[..n]).value, events[n]);
    }
  }

  lemma SparingSuffices(p: Policy)
    requires Spares(p)
    ensures ServesComplete(p)
  {
    forall s: State, events: seq<Event>, rid: nat | RunFrom(s, p, events) && CanServe(Run(s, events).value, rid)
      ensures AllIn(Run(s, events).value.requests[rid].wants, Run(s, events).value.store)
    {
      SparingKeepsServe(s, p, events);
      var r := Run(s, events).value.requests[rid];
      assert RequestOk(r, Run(s, events).value.store);
      assert forall k :: 0 <= k < |r.wants| ==> r.wants[k] in Elements(r.wants);
    }
  }

  // ----- and needed -----

  /** A hash that a request relies on is not in the store. */
  predicate Robbed(s: State, rid: nat, h: Oid) {
    rid in s.requests && h in Exposed(s.requests[rid]) && h !in s.store
  }

  lemma QueuedIsServed(t: Trace, rid: nat, h: Oid)
    requires Traced(t) && Robbed(t.state, rid, h) && t.state.requests[rid].pc.ServeQueued?
    ensures !ServesComplete(t.policy)
  {
    assert CanServe(t.state, rid);
    var k :| 0 <= k < |t.state.requests[rid].wants| && t.state.requests[rid].wants[k] == h;
    assert RunFrom(t.from, t.policy, t.events);
  }

  lemma SubmittedIsServed(t: Trace, rid: nat, h: Oid)
    requires Traced(t) && Robbed(t.state, rid, h) && t.state.requests[rid].pc.Submitting?
    ensures !ServesComplete(t.policy)
  {
    var u := Extend(t, At(rid, SubmitServe));
    QueuedIsServed(u, rid, h);
  }

  /** With the remaining wants in the store, the check goes through and does not look back. */
  lemma {:induction false} CheckPasses(t: Trace, rid: nat, h: Oid)
    requires Traced(t) && Robbed(t.state, rid, h) && t.state.requests[rid].pc.Checking?
    requires var r := t.state.requests[rid]; AllIn(r.wants[r.pc.k..], t.state.store)
    ensures !ServesComplete(t.policy)
    decreases |t.state.requests[rid].wants| - t.state.requests[rid].pc.k
  {
    var r := t.state.requests[rid];
    var k := r.pc.k;
    var u := Extend(t, At(rid, CheckHash));
    if k < |r.wants| {
      assert r.wants[k] == r.wants[k..][0];
      assert r.wants[k + 1..] == r.wants[k..][1..];
      assert Elements(r.wants[..k]) <= Elements(r.wants[..k + 1]);
      assert h !in r.wants[k + 1..];
      CheckPasses(u, rid, h);
    } else {
      assert r.wants[..k] == r.wants;
      SubmittedIsServed(u, rid, h);
    }
  }

  /** A bundle recovery may bring the remaining wants. */
  lemma RobbedIsServed(t: Trace, rid: nat, h: Oid)
    requires Traced(t) && Robbed(t.state, rid, h) && t.state.mu.Free?
    ensures !ServesComplete(t.policy)
  {
    var r := t.state.requests[rid];
    match r.pc {
      case ServeQueued => QueuedIsServed(t, rid, h);
      case Submitting => SubmittedIsServed(t, rid, h);
      case Checking(_, k) =>
        var u := Extend(t, RecoverLock);
        u := Extend(u, RecoverDone(Elements(r.wants[k..])));
        forall j | 0 <= j < |r.wants[k..]| ensures r.wants[k..][j] in u.state.store {
          assert r.wants[k..][j] in Elements(r.wants[k..]);
        }
        CheckPasses(u, rid, h);
    }
  }

  lemma SparingNeeded(p: Policy)
    requires !Spares(p)
    ensures !ServesComplete(p)
  {
    var s, events, removed, rid :| RunFrom(s, p, events) && Run(s, events).value.worker.Collecting?
                                   && p(Run(s, events).value, removed) && Robs(Run(s, events).value, removed, rid);
    var t := Trace(s, p, events, Run(s, events).value);
    var h :| h in Exposed(t.state.requests[rid]) * removed;
    t := Extend(t, End(Collect(removed)));
    RobbedIsServed(t, rid, h);
  }

  /** Serving is complete in every interleaving exactly when `git gc` spares what requests rely on. */
  lemma ServesCompleteExactly(p: Policy)
    ensures ServesComplete(p) <==> Spares(p)
  {
    if Spares(p) {
      SparingSuffices(p);
    } else {
      SparingNeeded(p);
    }
  }

  // ----- the two ends -----

  const ANYTHING: Policy := (s: State, removed: set<Oid>) => true

  lemma KeepingServes()
    ensures ServesComplete(KEEP_ALL)
  {
    SparingSuffices(KEEP_ALL);
  }

  /** A request for the hash `x`, found in the store and handed to the serve pool. */
  lemma RequestChecked(t: Trace) returns (u: Trace)
    requires Traced(t) && t.state.requests == map[] && "x" in t.state.store
    ensures Traced(u) && SameStart(t, u)
    ensures u.state == t.state.(requests := map[0 := Request(["x"], ServeQueued)])
  {
    u := Extend(t, Arrive(0, ["x"]));
    u := Extend(u, At(0, CheckHash));
    u := Extend(u, At(0, CheckHash));
    u := Extend(u, At(0, SubmitServe));
    assert u.state.requests == map[0 := Request(["x"], ServeQueued)];
  }

  /** `git gc` that may remove anything does remove a wanted object between the check and the upload-pack. */
  lemma CollectingBreaksServing()
    ensures !ServesComplete(ANYTHING)
  {
    var t := ForcedFetch(FRESH.(store := {"x"}), ANYTHING);
    t := Extend(t, Fetch(OriginDone(false)));
    t := EndsFetch(t, true);
    t := RequestChecked(t);
    t := Extend(t, End(TakeGcLock));
    assert "x" in Exposed(t.state.requests[0]) * {"x"};
    assert Robs(t.state, {"x"}, 0) && ANYTHING(t.state, {"x"});
    assert RunFrom(t.from, ANYTHING, t.events);
    SparingNeeded(ANYTHING);
  }
}
