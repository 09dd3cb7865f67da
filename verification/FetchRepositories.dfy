/** The channel protocol between `FetchRepositories` and the fetch pools. */
module FetchRepositories {
  import opened Options
  import opened Picks

  /** One listed repository. `Direct`: the error or the skip is sent by the collector itself. `Pooled`: a task in the pool
      of its cache path sends the result of the fetch and, if there was a `gc.log`, the result of `git gc`. */
  datatype Entry =
    | Direct(first: Option<string>)
    | Pooled(pool: nat, first: Option<string>, gc: Option<Option<string>>)

  datatype Phase = Idle | Queued | Sending1 | Sending2 | Finished

  datatype Collector = Launching(i: nat) | Collecting(j: nat, errors: seq<string>) | Returned(errors: seq<string>)

  /** `chans[k]` holds what was sent and not yet received for entry `k`. */
  datatype State = State(phases: seq<Phase>, chans: seq<seq<Option<string>>>, collector: Collector)

  const CHANNEL_CAPACITY := 1

  /** The pool library's limit in this program: one worker and a thousand waiting tasks. */
  const POOL_QUEUE := 1000

  datatype Event = Launch | Start(k: nat) | Send1(k: nat) | Send2(k: nat) | Receive

  predicate SamePool(es: seq<Entry>, a: nat, b: nat) {
    a < |es| && b < |es| && es[a].Pooled? && es[b].Pooled? && es[a].pool == es[b].pool
  }

  predicate Busy(p: Phase) {
    p.Queued? || p.Sending1? || p.Sending2?
  }

  /** How many of the first `n` entries are tasks that occupy pool `p`. */
  function Load(es: seq<Entry>, phases: seq<Phase>, p: nat, n: nat): nat
    requires n <= |es| == |phases|
  {
    if n == 0 then 0
    else Load(es, phases, p, n - 1) + (if es[n - 1].Pooled? && es[n - 1].pool == p && Busy(phases[n - 1]) then 1 else 0)
  }

  function Init(es: seq<Entry>): State {
    State(seq(|es|, _ => Idle), seq(|es|, _ => []), Launching(0))
  }

  predicate Shaped(es: seq<Entry>, s: State) {
    |s.phases| == |s.chans| == |es|
  }

  function Set(s: State, k: nat, phase: Phase, chan: seq<Option<string>>): State
    requires k < |s.phases| == |s.chans|
  {
    s.(phases := s.phases[k := phase], chans := s.chans[k := chan])
  }

  /** Submitting blocks while one task runs and `cap` more wait; a send blocks while the channel is full. */
  function Step(es: seq<Entry>, cap: nat, s: State, e: Event): Option<State>
    requires Shaped(es, s)
  {
    match e
    case Launch =>
      if !s.collector.Launching? then None
      else
        var i := s.collector.i;
        if i >= |es| then Some(s.(collector := Collecting(0, [])))
        else
          (match es[i]
           case Direct(first) =>
             if |s.chans[i]| < CHANNEL_CAPACITY then
               Some(Set(s, i, Finished, s.chans[i] + [first]).(collector := Launching(i + 1)))
             else None
           case Pooled(p, _, _) =>
             if Load(es, s.phases, p, |es|) <= cap then
               Some(Set(s, i, Queued, s.chans[i]).(collector := Launching(i + 1)))
             else None)
    case Start(k) =>
      if k < |es| && s.phases[k].Queued? && (forall m :: 0 <= m < |es| && SamePool(es, m, k) && m != k ==>
                                               !s.phases[m].Sending1? && !s.phases[m].Sending2? && (m < k ==> !s.phases[m].Queued?))
      then Some(Set(s, k, Sending1, s.chans[k])) else None
    case Send1(k) =>
      if k < |es| && s.phases[k].Sending1? && es[k].Pooled? && |s.chans[k]| < CHANNEL_CAPACITY
      then Some(Set(s, k, if es[k].gc.Some? then Sending2 else Finished, s.chans[k] + [es[k].first])) else None
    case Send2(k) =>
      if k < |es| && s.phases[k].Sending2? && es[k].Pooled? && es[k].gc.Some? && |s.chans[k]| < CHANNEL_CAPACITY
      then Some(Set(s, k, Finished, s.chans[k] + [es[k].gc.value])) else None
    case Receive =>
      if !s.collector.Collecting? then None
      else
        var Collecting(j, errors) := s.collector;
        if j >= |es| then Some(s.(collector := Returned(errors)))
        else if s.chans[j] == [] then None
        else
          var value := s.chans[j][0];
          Some(Set(s, j, s.phases[j], s.chans[j][1..]).(
                 collector := Collecting(j + 1, if value.Some? then errors + [value.value] else errors)))
  }

  lemma StepShaped(es: seq<Entry>, cap: nat, s: State, e: Event)
    requires Shaped(es, s) && Step(es, cap, s, e).Some?
    ensures Shaped(es, Step(es, cap, s, e).value)
  {
  }

  function Run(es: seq<Entry>, cap: nat, s: State, events: seq<Event>): (r: Option<State>)
    requires Shaped(es, s)
    ensures r.Some? ==> Shaped(es, r.value)
    decreases |events|
  {
    if events == [] then Some(s)
    else
      match Step(es, cap, s, events[0])
      case None => None
      case Some(s') => StepShaped(es, cap, s, events[0]); Run(es, cap, s', events[1..])
  }

  /** The collector has returned and every task has left its pool. */
  predicate Final(s: State) {
    s.collector.Returned? && forall k :: 0 <= k < |s.phases| ==> s.phases[k].Finished?
  }

  /** The non-nil results of the fetches among the first `n` entries, in list order. */
  function Errors(es: seq<Entry>, n: nat): seq<string>
    requires n <= |es|
  {
    if n == 0 then []
    else Errors(es, n - 1) + if es[n - 1].first.Some? then [es[n - 1].first.value] else []
  }

  // ----- the invariant -----

  predicate Launched(s: State, k: nat) {
    s.collector.Launching? ==> k < s.collector.i
  }

  predicate Received(s: State, k: nat) {
    s.collector.Returned? || (s.collector.Collecting? && k < s.collector.j)
  }

  predicate EntryOk(es: seq<Entry>, s: State, k: nat)
    requires Shaped(es, s) && k < |es|
  {
    && (s.phases[k].Idle? <==> !Launched(s, k))
    && (es[k].Direct? ==> s.phases[k].Idle? || s.phases[k].Finished?)
    && (s.phases[k].Sending2? ==> es[k].Pooled? && es[k].gc.Some?)
    && (if Received(s, k) then
          (s.phases[k].Sending2? && s.chans[k] == []) || s.phases[k].Finished?
        else
          (match s.phases[k]
           case Sending2 => s.chans[k] == [es[k].first]
           case Finished => s.chans[k] == [es[k].first]
           case _ => s.chans[k] == []))
  }

  predicate InOrder(es: seq<Entry>, s: State)
    requires Shaped(es, s)
  {
    forall m, k :: 0 <= m < k < |es| && SamePool(es, m, k) && !s.phases[k].Idle? && !s.phases[k].Queued?
                   ==> s.phases[m].Finished?
  }

  predicate Inv(es: seq<Entry>, s: State) {
    && Shaped(es, s)
    && (s.collector.Launching? ==> s.collector.i <= |es|)
    && (s.collector.Collecting? ==> s.collector.j <= |es| && s.collector.errors == Errors(es, s.collector.j))
    && (s.collector.Returned? ==> s.collector.errors == Errors(es, |es|))
    && (forall k :: 0 <= k < |es| ==> EntryOk(es, s, k))
    && InOrder(es, s)
  }

  lemma StepKeepsEntries(es: seq<Entry>, cap: nat, s: State, e: Event)
    requires Inv(es, s) && Step(es, cap, s, e).Some?
    ensures var s' := Step(es, cap, s, e).value; forall k :: 0 <= k < |es| ==> EntryOk(es, s', k)
  {
    var s' := Step(es, cap, s, e).value;
    forall k | 0 <= k < |es| ensures EntryOk(es, s', k) {
      assert EntryOk(es, s, k);
    }
  }

  /** A pool works in list order, one task at a time. */
  lemma StepKeepsOrder(es: seq<Entry>, cap: nat, s: State, e: Event)
    requires Inv(es, s) && Step(es, cap, s, e).Some?
    ensures InOrder(es, Step(es, cap, s, e).value)
  {
    var s' := Step(es, cap, s, e).value;
    forall m, k | 0 <= m < k < |es| && SamePool(es, m, k) && !s'.phases[k].Idle? && !s'.phases[k].Queued?
      ensures s'.phases[m].Finished?
    {
      assert EntryOk(es, s, m) && EntryOk(es, s, k);
      if e == Start(k) {
        assert SamePool(es, m, k);
      }
    }
  }

  lemma StepKeepsInv(es: seq<Entry>, cap: nat, s: State, e: Event)
    requires Inv(es, s) && Step(es, cap, s, e).Some?
    ensures Inv(es, Step(es, cap, s, e).value)
  {
    StepKeepsEntries(es, cap, s, e);
    StepKeepsOrder(es, cap, s, e);
    if e.Receive? && s.collector.j < |es| {
      assert EntryOk(es, s, s.collector.j);
    }
  }

  lemma {:induction false} RunKeepsInv(es: seq<Entry>, cap: nat, s: State, events: seq<Event>)
    requires Inv(es, s) && Run(es, cap, s, events).Some?
    ensures Inv(es, Run(es, cap, s, events).value)
    decreases |events|
  {
    if events != [] {
      StepKeepsInv(es, cap, s, events[0]);
      RunKeepsInv(es, cap, Step(es, cap, s, events[0]).value, events[1..]);
    }
  }

  lemma InitIsInv(es: seq<Entry>)
    ensures Inv(es, Init(es))
  {
  }

  /** Where in the list the collected errors come from. */
  lemma {:induction false} ErrorsPicked(es: seq<Entry>, n: nat) returns (ix: seq<nat>)
    requires n <= |es|
    ensures Increasing(ix) && Below(ix, n) && |ix| == |Errors(es, n)|
    ensures forall i :: 0 <= i < |ix| ==> es[ix[i]].first == Some(Errors(es, n)[i])
    ensures forall k :: 0 <= k < n ==> (k in ix <==> es[k].first.Some?)
  {
    if n == 0 {
      ix := [];
    } else {
      ix := ErrorsPicked(es, n - 1);
      assert forall k :: k in ix ==> k < n - 1;
      PickNext(ix, n - 1);
      if es[n - 1].first.Some? {
        ix := ix + [n - 1];
      }
    }
  }

  /** The errors returned are the non-nil first sends, each once and in list order, whatever the schedule:
      those of the entries `ix`. No result of `git gc` is among them. */
  lemma ErrorsAreFirstSends(es: seq<Entry>, cap: nat, events: seq<Event>) returns (ix: seq<nat>)
    requires Run(es, cap, Init(es), events).Some?
    ensures Increasing(ix) && (forall k :: 0 <= k < |es| ==> (k in ix <==> es[k].first.Some?)) && Below(ix, |es|)
    ensures var s := Run(es, cap, Init(es), events).value;
            s.collector.Returned? ==>
              && |s.collector.errors| == |ix|
              && forall i :: 0 <= i < |ix| ==> es[ix[i]].first == Some(s.collector.errors[i])
  {
    InitIsInv(es);
    RunKeepsInv(es, cap, Init(es), events);
    ix := ErrorsPicked(es, |es|);
  }

  // ----- every run ends -----

  function PhaseRank(p: Phase): nat {
    match p
    case Idle => 4
    case Queued => 3
    case Sending1 => 2
    case Sending2 => 1
    case Finished => 0
  }

  function TaskRank(phases: seq<Phase>): nat {
    if phases == [] then 0 else TaskRank(phases[..|phases| - 1]) + PhaseRank(phases[|phases| - 1])
  }

  function CollectorRank(es: seq<Entry>, c: Collector): int {
    match c
    case Launching(i) => 2 * |es| + 2 - i
    case Collecting(j, _) => |es| + 1 - j
    case Returned(_) => 0
  }

  function Rank(es: seq<Entry>, s: State): int {
    TaskRank(s.phases) + CollectorRank(es, s.collector)
  }

  lemma {:induction false} TaskRankUpdate(phases: seq<Phase>, k: nat, p: Phase)
    requires k < |phases|
    ensures TaskRank(phases[k := p]) == TaskRank(phases) - PhaseRank(phases[k]) + PhaseRank(p)
  {
    var front := phases[..|phases| - 1];
    if k == |phases| - 1 {
      assert phases[k := p][..k] == front;
    } else {
      assert phases[k := p][..|phases| - 1] == front[k := p];
      TaskRankUpdate(front, k, p);
    }
  }

  lemma StepDescends(es: seq<Entry>, cap: nat, s: State, e: Event)
    requires Inv(es, s) && Step(es, cap, s, e).Some?
    ensures 0 <= Rank(es, Step(es, cap, s, e).value) < Rank(es, s)
  {
    var s' := Step(es, cap, s, e).value;
    StepKeepsInv(es, cap, s, e);
    match e {
      case Launch =>
        if s.collector.i < |es| {
          assert EntryOk(es, s, s.collector.i);
          TaskRankUpdate(s.phases, s.collector.i, s'.phases[s.collector.i]);
        }
      case Start(k) => TaskRankUpdate(s.phases, k, Sending1);
      case Send1(k) => TaskRankUpdate(s.phases, k, s'.phases[k]);
      case Send2(k) => TaskRankUpdate(s.phases, k, Finished);
      case Receive =>
        assert s'.phases == s.phases;
    }
  }

  lemma {:induction false} InitRank(n: nat)
    ensures TaskRank(seq(n, _ => Idle)) == 4 * n
  {
    if n > 0 {
      InitRank(n - 1);
      assert seq(n, _ => Idle)[..n - 1] == seq(n - 1, _ => Idle);
    }
  }

  lemma {:induction false} RunDescends(es: seq<Entry>, cap: nat, s: State, events: seq<Event>)
    requires Inv(es, s) && Run(es, cap, s, events).Some? && 0 <= Rank(es, s)
    ensures |events| + Rank(es, Run(es, cap, s, events).value) <= Rank(es, s)
    ensures 0 <= Rank(es, Run(es, cap, s, events).value)
    decreases |events|
  {
    if events != [] {
      StepKeepsInv(es, cap, s, events[0]);
      StepDescends(es, cap, s, events[0]);
      RunDescends(es, cap, Step(es, cap, s, events[0]).value, events[1..]);
    }
  }

  /** No schedule goes on for ever: a run over `n` entries has at most `6n + 2` steps. */
  lemma RunsAreShort(es: seq<Entry>, cap: nat, events: seq<Event>)
    requires Run(es, cap, Init(es), events).Some?
    ensures |events| <= 6 * |es| + 2
  {
    InitIsInv(es);
    InitRank(|es|);
    assert Init(es).phases == seq(|es|, _ => Idle);
    RunDescends(es, cap, Init(es), events);
  }

  // ----- no run gets stuck -----

  /** How many of the first `n` entries use pool `p`. */
  function Uses(es: seq<Entry>, p: nat, n: nat): nat
    requires n <= |es|
  {
    if n == 0 then 0 else Uses(es, p, n - 1) + if es[n - 1].Pooled? && es[n - 1].pool == p then 1 else 0
  }

  /** No entry has more than `cap` predecessors with the same cache path. */
  predicate Fits(es: seq<Entry>, cap: nat) {
    forall i :: 0 <= i < |es| && es[i].Pooled? ==> Uses(es, es[i].pool, i) <= cap
  }

  predicate Stuck(es: seq<Entry>, cap: nat, s: State)
    requires Shaped(es, s)
  {
    && Step(es, cap, s, Launch).None?
    && Step(es, cap, s, Receive).None?
    && forall k :: 0 <= k < |es| ==>
         Step(es, cap, s, Start(k)).None? && Step(es, cap, s, Send1(k)).None? && Step(es, cap, s, Send2(k)).None?
  }

  lemma {:induction false} LoadAtMostUses(es: seq<Entry>, s: State, p: nat, i: nat, n: nat)
    requires Inv(es, s) && s.collector == Launching(i) && n <= |es|
    ensures Load(es, s.phases, p, n) <= Uses(es, p, if n < i then n else i)
  {
    if n > 0 {
      LoadAtMostUses(es, s, p, i, n - 1);
      assert EntryOk(es, s, n - 1);
    }
  }

  /** The first unfinished task of a pool, unless it waits to send a second time, can move. */
  lemma PoolMoves(es: seq<Entry>, cap: nat, s: State, k: nat) returns (m: nat)
    requires Inv(es, s) && k < |es| && es[k].Pooled? && s.phases[k].Queued?
    ensures m <= k && (m == k || SamePool(es, m, k)) && EntryOk(es, s, m)
    ensures Step(es, cap, s, Start(m)).Some? || s.phases[m].Sending1? || (s.phases[m].Sending2? && m < k)
    decreases k
  {
    assert EntryOk(es, s, k);
    if j :| 0 <= j < k && SamePool(es, j, k) && !s.phases[j].Finished? {
      assert EntryOk(es, s, j);
      if s.phases[j].Queued? {
        m := PoolMoves(es, cap, s, j);
      } else {
        m := j;
      }
    } else {
      m := k;
      forall q | 0 <= q < |es| && SamePool(es, q, k) && q != k
        ensures !s.phases[q].Sending1? && !s.phases[q].Sending2? && (q < k ==> !s.phases[q].Queued?)
      {
        if q > k {
          assert SamePool(es, k, q);
        }
      }
    }
  }

  lemma Progress(es: seq<Entry>, cap: nat, s: State)
    requires Inv(es, s) && Fits(es, cap) && !Final(s)
    ensures !Stuck(es, cap, s)
  {
    match s.collector {
      case Launching(i) =>
        if i < |es| {
          assert EntryOk(es, s, i);
          if es[i].Pooled? {
            LoadAtMostUses(es, s, es[i].pool, i, |es|);
          }
        }
        assert Step(es, cap, s, Launch).Some?;
      case Collecting(j, _) =>
        if j < |es| && s.chans[j] == [] {
          assert EntryOk(es, s, j);
          var m := j;
          if s.phases[j].Queued? {
            m := PoolMoves(es, cap, s, j);
          }
          assert Step(es, cap, s, Start(m)).Some? || Step(es, cap, s, Send1(m)).Some? || Step(es, cap, s, Send2(m)).Some?;
        } else {
          assert Step(es, cap, s, Receive).Some?;
        }
      case Returned(_) =>
        var k :| 0 <= k < |es| && !s.phases[k].Finished?;
        assert EntryOk(es, s, k);
        assert Step(es, cap, s, Send2(k)).Some?;
    }
  }

  // ----- more than the pool can hold -----

  predicate First(es: seq<Entry>, k: nat) {
    forall m: nat :: m < k ==> !SamePool(es, m, k)
  }

  function EarlyPhase(es: seq<Entry>, k: nat): Phase
    requires k < |es|
  {
    if es[k].Direct? then Finished else if First(es, k) then Sending2 else Queued
  }

  /** After `i` launches, every pool's first task has sent once and waits to send again; the others are queued. */
  function Early(es: seq<Entry>, i: nat): State {
    State(seq(|es|, k requires 0 <= k < |es| => if k < i then EarlyPhase(es, k) else Idle),
          seq(|es|, k requires 0 <= k < |es| => if k < i && !EarlyPhase(es, k).Queued? then [es[k].first] else []),
          Launching(i))
  }

  lemma {:induction false} EarlyLoad(es: seq<Entry>, i: nat, p: nat, n: nat)
    requires n <= |es| && i <= |es|
    ensures Load(es, Early(es, i).phases, p, n) == Uses(es, p, if n < i then n else i)
  {
    if n > 0 {
      EarlyLoad(es, i, p, n - 1);
    }
  }

  lemma {:induction false} RunAppend(es: seq<Entry>, cap: nat, s: State, events: seq<Event>, e: Event)
    requires Shaped(es, s) && Run(es, cap, s, events).Some?
    ensures Run(es, cap, s, events + [e]) == Step(es, cap, Run(es, cap, s, events).value, e)
    decreases |events|
  {
    if events == [] {
      assert [e][1..] == [] && [] + [e] == [e];
    } else {
      assert (events + [e])[0] == events[0] && (events + [e])[1..] == events[1..] + [e];
      RunAppend(es, cap, Step(es, cap, s, events[0]).value, events[1..], e);
    }
  }

  predicate AllCollect(es: seq<Entry>) {
    forall k :: 0 <= k < |es| && es[k].Pooled? ==> es[k].gc.Some?
  }

  function EarlyLaunched(es: seq<Entry>, k: nat): State
    requires k < |es|
  {
    Set(Early(es, k), k, Queued, []).(collector := Launching(k + 1))
  }

  lemma EarlyLaunch(es: seq<Entry>, cap: nat, k: nat)
    requires k < |es| && (es[k].Pooled? ==> Uses(es, es[k].pool, k) <= cap)
    ensures Step(es, cap, Early(es, k), Launch) ==
            Some(if es[k].Pooled? && First(es, k) then EarlyLaunched(es, k) else Early(es, k + 1))
  {
    if es[k].Pooled? {
      EarlyLoad(es, k, es[k].pool, |es|);
    }
    var s := Step(es, cap, Early(es, k), Launch).value;
    if !(es[k].Pooled? && First(es, k)) {
      assert s.phases == Early(es, k + 1).phases;
      assert [] + [es[k].first] == [es[k].first];
      assert forall q :: 0 <= q < |es| ==> s.chans[q] == Early(es, k + 1).chans[q];
      assert s == Early(es, k + 1);
    }
  }

  /** The first task of a pool starts at once and sends the result of its fetch. */
  lemma EarlyFirst(es: seq<Entry>, cap: nat, k: nat)
    requires k < |es| && es[k].Pooled? && es[k].gc.Some? && First(es, k)
    ensures var s := Set(EarlyLaunched(es, k), k, Sending1, []);
            Step(es, cap, EarlyLaunched(es, k), Start(k)) == Some(s) &&
            Step(es, cap, s, Send1(k)) == Some(Early(es, k + 1))
  {
    var s1 := EarlyLaunched(es, k);
    forall m | 0 <= m < |es| && SamePool(es, m, k) && m != k ensures m > k && s1.phases[m].Idle? {
    }
    var s2 := Set(s1, k, Sending1, []);
    var s3 := Step(es, cap, s2, Send1(k)).value;
    assert s3.phases == Early(es, k + 1).phases;
    assert [] + [es[k].first] == [es[k].first];
    assert forall q :: 0 <= q < |es| ==> s3.chans[q] == Early(es, k + 1).chans[q];
    assert s3 == Early(es, k + 1);
  }

  lemma {:induction false} ReachesEarly(es: seq<Entry>, cap: nat, i: nat) returns (events: seq<Event>)
    requires i <= |es| && AllCollect(es)
    requires forall j :: 0 <= j < i && es[j].Pooled? ==> Uses(es, es[j].pool, j) <= cap
    ensures Run(es, cap, Init(es), events) == Some(Early(es, i))
    decreases i
  {
    if i == 0 {
      events := [];
      assert Init(es) == Early(es, 0);
    } else {
      events := ReachesEarly(es, cap, i - 1);
      var k := i - 1;
      EarlyLaunch(es, cap, k);
      RunAppend(es, cap, Init(es), events, Launch);
      events := events + [Launch];
      if es[k].Pooled? && First(es, k) {
        EarlyFirst(es, cap, k);
        RunAppend(es, cap, Init(es), events, Start(k));
        events := events + [Start(k)];
        RunAppend(es, cap, Init(es), events, Send1(k));
        events := events + [Send1(k)];
      }
    }
  }

  /** The first entry with the same cache path. */
  lemma FirstOf(es: seq<Entry>, k: nat) returns (m: nat)
    requires k < |es| && es[k].Pooled? && !First(es, k)
    ensures m < k && SamePool(es, m, k) && First(es, m)
    decreases k
  {
    m :| m < k && SamePool(es, m, k);
    if !First(es, m) {
      m := FirstOf(es, m);
    }
  }

  lemma EarlyIsStuck(es: seq<Entry>, cap: nat, i: nat)
    requires i < |es| && es[i].Pooled? && Uses(es, es[i].pool, i) > cap
    ensures Stuck(es, cap, Early(es, i)) && !Final(Early(es, i))
  {
    var s := Early(es, i);
    EarlyLoad(es, i, es[i].pool, |es|);
    forall k | 0 <= k < |es|
      ensures Step(es, cap, s, Start(k)).None? && Step(es, cap, s, Send1(k)).None? && Step(es, cap, s, Send2(k)).None?
    {
      if s.phases[k].Queued? {
        var m := FirstOf(es, k);
        assert SamePool(es, m, k) && s.phases[m].Sending2?;
      }
    }
  }

  predicate SameShape(es: seq<Entry>, fs: seq<Entry>) {
    |es| == |fs| && forall k :: 0 <= k < |es| ==>
                      es[k].Pooled? == fs[k].Pooled? && (es[k].Pooled? ==> es[k].pool == fs[k].pool)
  }

  lemma {:induction false} ShapeUses(es: seq<Entry>, fs: seq<Entry>, p: nat, n: nat)
    requires SameShape(es, fs) && n <= |es|
    ensures Uses(es, p, n) == Uses(fs, p, n)
  {
    if n > 0 {
      ShapeUses(es, fs, p, n - 1);
    }
  }

  lemma ShapeFits(es: seq<Entry>, fs: seq<Entry>, cap: nat)
    requires SameShape(es, fs) && Fits(es, cap)
    ensures Fits(fs, cap)
  {
    forall i | 0 <= i < |fs| && fs[i].Pooled? ensures Uses(fs, fs[i].pool, i) <= cap {
      ShapeUses(es, fs, fs[i].pool, i);
    }
  }

  ghost predicate Reached(es: seq<Entry>, cap: nat, events: seq<Event>) {
    Run(es, cap, Init(es), events).Some?
  }

  /** Whatever the fetches and `git gc` return and however the pools schedule their work, somebody can always move
      until the collector has returned and all tasks are done. */
  ghost predicate DeadlockFree(es: seq<Entry>, cap: nat) {
    forall fs, events :: SameShape(es, fs) && Reached(fs, cap, events) ==>
      Final(Run(fs, cap, Init(fs), events).value) || !Stuck(fs, cap, Run(fs, cap, Init(fs), events).value)
  }

  lemma Earliest(es: seq<Entry>, cap: nat, i: nat) returns (j: nat)
    requires i < |es| && es[i].Pooled? && Uses(es, es[i].pool, i) > cap
    ensures j < |es| && es[j].Pooled? && Uses(es, es[j].pool, j) > cap
    ensures forall m :: 0 <= m < j && es[m].Pooled? ==> Uses(es, es[m].pool, m) <= cap
    decreases i
  {
    if m :| 0 <= m < i && es[m].Pooled? && Uses(es, es[m].pool, m) > cap {
      j := Earliest(es, cap, m);
    } else {
      j := i;
    }
  }

  lemma Hangs(es: seq<Entry>, cap: nat)
    requires !Fits(es, cap)
    ensures !DeadlockFree(es, cap)
  {
    var fs := seq(|es|, k requires 0 <= k < |es| =>
      if es[k].Pooled? then Pooled(es[k].pool, es[k].first, Some(None)) else es[k]);
    if Fits(fs, cap) {
      ShapeFits(fs, es, cap);
    }
    var i :| 0 <= i < |fs| && fs[i].Pooled? && Uses(fs, fs[i].pool, i) > cap;
    var j := Earliest(fs, cap, i);
    var events := ReachesEarly(fs, cap, j);
    EarlyIsStuck(fs, cap, j);
    assert SameShape(es, fs) && Reached(fs, cap, events);
  }

  /** `FetchRepositories` can hang if and only if some cache path is listed more than `cap + 1` times. */
  lemma DeadlockFreeExactly(es: seq<Entry>, cap: nat)
    ensures DeadlockFree(es, cap) <==> Fits(es, cap)
  {
    if Fits(es, cap) {
      forall fs, events | SameShape(es, fs) && Reached(fs, cap, events)
        ensures Final(Run(fs, cap, Init(fs), events).value) || !Stuck(fs, cap, Run(fs, cap, Init(fs), events).value)
      {
        ShapeFits(es, fs, cap);
        InitIsInv(fs);
        RunKeepsInv(fs, cap, Init(fs), events);
        if !Final(Run(fs, cap, Init(fs), events).value) {
          Progress(fs, cap, Run(fs, cap, Init(fs), events).value);
        }
      }
    } else {
      Hangs(es, cap);
    }
  }

  lemma {:induction false} NoUses(es: seq<Entry>, i: nat, n: nat)
    requires n <= i < |es| && es[i].Pooled? && First(es, i)
    ensures Uses(es, es[i].pool, n) == 0
  {
    if n > 0 {
      NoUses(es, i, n - 1);
      assert !SamePool(es, n - 1, i);
    }
  }

  /** Entries with distinct cache paths always fit. */
  lemma DistinctPathsFit(es: seq<Entry>, cap: nat)
    requires forall m, k :: 0 <= m < k < |es| ==> !SamePool(es, m, k)
    ensures Fits(es, cap) && DeadlockFree(es, cap)
  {
    forall i | 0 <= i < |es| && es[i].Pooled? ensures Uses(es, es[i].pool, i) <= cap {
      NoUses(es, i, i);
    }
    DeadlockFreeExactly(es, cap);
  }

  lemma {:induction false} AllUse(es: seq<Entry>, p: nat, n: nat)
    requires n <= |es| && forall k :: 0 <= k < |es| ==> es[k].Pooled? && es[k].pool == p
    ensures Uses(es, p, n) == n
  {
    if n > 0 {
      AllUse(es, p, n - 1);
    }
  }

  /** One repository, listed again and again, is too much for its pool from the 1002nd time on. */
  lemma RepeatedPathExactly(es: seq<Entry>, p: nat)
    requires forall k :: 0 <= k < |es| ==> es[k].Pooled? && es[k].pool == p
    ensures DeadlockFree(es, POOL_QUEUE) <==> |es| <= 1001
  {
    forall i | 0 <= i < |es| ensures Uses(es, p, i) == i {
      AllUse(es, p, i);
    }
    if |es| > POOL_QUEUE + 1 {
      assert Uses(es, es[POOL_QUEUE + 1].pool, POOL_QUEUE + 1) > POOL_QUEUE;
    }
    DeadlockFreeExactly(es, POOL_QUEUE);
  }
}
