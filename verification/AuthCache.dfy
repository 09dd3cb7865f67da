/** The authorization cache: any number of concurrent calls, evictions at any time. */
module AuthCache {
  import opened Clock
  import opened Options
  import opened Strings
  import opened AuthKey

  const TTL := 15 * 60 * SECOND

  /** How the request to GitHub ends. */
  datatype Reply = NoRequest | NoResponse | NoBody | Status(code: int)

  datatype Verdict = Verdict(authorized: bool, cacheable: bool)

  /** Server errors, except 501, say nothing about the token. */
  predicate Passing(r: Reply) {
    r.Status? && 500 <= r.code <= 599 && r.code != 501
  }

  /** Only a 200 authorizes; only a passing error is not worth storing. */
  function Judge(r: Reply): Verdict {
    Verdict(r == Status(200), !Passing(r))
  }

  datatype Repo = Repo(owner: string, name: string)

  predicate ByteRepo(r: Repo) {
    Bytes(r.owner) && Bytes(r.name)
  }

  function Key(token: string, r: Repo): string
    requires ByteRepo(r)
  {
    CacheKey(token, RepoUrl(r.owner, r.name))
  }

  /** One reply of GitHub to the validator, for the record. */
  datatype Answer = Answer(token: string, repo: Repo, reply: Reply, cid: nat) {
    function verdict(): Verdict {
      Judge(reply)
    }
  }

  /** A cached verdict, when it was stored and which answer it was. */
  datatype Stored = Stored(authorized: bool, at: int, source: nat)

  datatype Pc =
    | Looking
    | Asking
    | Storing(source: nat)
    | Returned(authorized: bool, source: nat, cachedAt: Option<int>, at: int)

  datatype Call = Call(token: string, repo: Repo, pc: Pc)

  datatype State = State(enabled: bool, now: int, cache: map<string, Stored>, calls: map<nat, Call>, answers: seq<Answer>)

  datatype Event =
    | Tick(d: nat)
    | Evict(key: string)
    | Arrive(cid: nat, token: string, repo: Repo)
    | Lookup(cid: nat)
    | Validate(cid: nat, reply: Reply)
    | Store(cid: nat)

  function Go(s: State, cid: nat, pc: Pc): State
    requires cid in s.calls
  {
    s.(calls := s.calls[cid := s.calls[cid].(pc := pc)])
  }

  /** An entry that is still there and not past its time. A hit does not extend it. */
  predicate Live(s: State, key: string) {
    key in s.cache && s.now - s.cache[key].at <= TTL
  }

  function Step(s: State, e: Event): Option<State> {
    match e
    case Tick(d) => Some(s.(now := s.now + d))
    case Evict(key) => Some(s.(cache := s.cache - {key}))
    case Arrive(cid, token, repo) =>
      if cid in s.calls || !ByteRepo(repo) then None
      else Some(s.(calls := s.calls[cid := Call(token, repo, if s.enabled then Looking else Asking)]))
    case Lookup(cid) =>
      if cid !in s.calls || !s.calls[cid].pc.Looking? || !ByteRepo(s.calls[cid].repo) then None
      else
        var key := Key(s.calls[cid].token, s.calls[cid].repo);
        Some(if Live(s, key)
             then Go(s, cid, Returned(s.cache[key].authorized, s.cache[key].source, Some(s.cache[key].at), s.now))
             else Go(s, cid, Asking))
    case Validate(cid, reply) =>
      if cid !in s.calls || !s.calls[cid].pc.Asking? then None
      else
        var answer := Answer(s.calls[cid].token, s.calls[cid].repo, reply, cid);
        Some(Go(s, cid, Storing(|s.answers|)).(answers := s.answers + [answer]))
    case Store(cid) =>
      if cid !in s.calls || !s.calls[cid].pc.Storing? || !ByteRepo(s.calls[cid].repo) then None
      else
        var source := s.calls[cid].pc.source;
        if source >= |s.answers| then None
        else
          var verdict := s.answers[source].verdict();
          var s' := Go(s, cid, Returned(verdict.authorized, source, None, s.now));
          Some(if s.enabled && verdict.cacheable
               then s'.(cache := s.cache[Key(s.calls[cid].token, s.calls[cid].repo) := Stored(verdict.authorized, s.now, source)])
               else s')
  }

  function Run(s: State, events: seq<Event>): Option<State>
    decreases |events|
  {
    if events == [] then Some(s)
    else
      match Step(s, events[0])
      case None => None
      case Some(s') => Run(s', events[1..])
  }

  predicate Init(s: State) {
    s.cache == map[] && s.calls == map[] && s.answers == []
  }

  predicate AnswersFor(s: State, source: nat, token: string, repo: Repo, authorized: bool) {
    && source < |s.answers|
    && var a := s.answers[source];
       a.token == token && a.repo == repo && a.verdict().authorized == authorized
  }

  predicate StoredOk(s: State, key: string)
    requires key in s.cache
  {
    var v := s.cache[key];
    && v.source < |s.answers|
    && var a := s.answers[v.source];
       ByteRepo(a.repo) && key == Key(a.token, a.repo) && a.verdict().authorized == v.authorized && a.verdict().cacheable
  }

  /** The call that obtained the answer has returned it, not from the cache, at time `at`. */
  predicate ReturnedFresh(s: State, source: nat, authorized: bool, at: int) {
    && source < |s.answers|
    && var q := s.answers[source].cid;
       q in s.calls && s.calls[q].pc == Returned(authorized, source, None, at)
  }

  predicate StoredBy(s: State, key: string)
    requires key in s.cache
  {
    var v := s.cache[key];
    ReturnedFresh(s, v.source, v.authorized, v.at) && v.at <= s.now
  }

  predicate CallOk(s: State, cid: nat)
    requires cid in s.calls
  {
    var c := s.calls[cid];
    && ByteRepo(c.repo)
    && (match c.pc
        case Looking => s.enabled
        case Storing(source) =>
          AnswersFor(s, source, c.token, c.repo, if source < |s.answers| then s.answers[source].verdict().authorized else false)
          && s.answers[source].cid == cid
        case Returned(authorized, source, cachedAt, at) =>
          && AnswersFor(s, source, c.token, c.repo, authorized)
          && (match cachedAt
              case None => s.answers[source].cid == cid
              case Some(stored) =>
                && s.enabled && s.answers[source].verdict().cacheable && ReturnedFresh(s, source, authorized, stored)
                && stored <= at <= stored + TTL)
        case _ => true)
  }

  predicate Inv(s: State) {
    && (forall key :: key in s.cache ==> StoredOk(s, key) && StoredBy(s, key))
    && (forall cid :: cid in s.calls ==> CallOk(s, cid))
  }

  /** Entries and calls a step does not touch stay in order while answers only grow and finished calls stay put. */
  lemma OthersKeepInv(s: State, s': State, cid: nat)
    requires Inv(s) && s'.enabled == s.enabled && s.now <= s'.now && s.answers <= s'.answers
    requires forall q :: q in s.calls ==> q in s'.calls
    requires forall q :: q in s'.calls && q != cid ==> q in s.calls && s'.calls[q] == s.calls[q]
    requires cid in s.calls ==> !s.calls[cid].pc.Returned?
    ensures forall q :: q in s'.calls && q != cid ==> CallOk(s', q)
    ensures forall key :: key in s.cache && key in s'.cache && s'.cache[key] == s.cache[key]
                          ==> StoredOk(s', key) && StoredBy(s', key)
  {
    forall q | q in s'.calls && q != cid ensures CallOk(s', q) {
      assert CallOk(s, q);
    }
    forall key | key in s.cache && key in s'.cache && s'.cache[key] == s.cache[key]
      ensures StoredOk(s', key) && StoredBy(s', key)
    {
      assert StoredOk(s, key) && StoredBy(s, key);
    }
  }

  /** A hit returns an answer for the same token and repository. */
  lemma HitIsOk(s: State, s': State, cid: nat)
    requires Inv(s) && Step(s, Lookup(cid)) == Some(s')
    ensures CallOk(s', cid)
  {
    assert CallOk(s, cid);
    var c := s.calls[cid];
    var key := Key(c.token, c.repo);
    if Live(s, key) {
      assert StoredOk(s, key) && StoredBy(s, key);
      var a := s.answers[s.cache[key].source];
      CacheKeyInjective(c.token, c.repo.owner, c.repo.name, a.token, a.repo.owner, a.repo.name);
    }
  }

  lemma LookupKeepsInv(s: State, cid: nat)
    requires Inv(s) && Step(s, Lookup(cid)).Some?
    ensures Inv(Step(s, Lookup(cid)).value)
  {
    var s' := Step(s, Lookup(cid)).value;
    HitIsOk(s, s', cid);
    OthersKeepInv(s, s', cid);
  }

  lemma StoredIsOk(s: State, s': State, cid: nat)
    requires Step(s, Store(cid)) == Some(s') && CallOk(s, cid)
    ensures var c := s.calls[cid]; var key := Key(c.token, c.repo);
            && (key in s'.cache && (key !in s.cache || s'.cache[key] != s.cache[key]) ==> StoredOk(s', key) && StoredBy(s', key))
            && forall k :: k in s'.cache && k != key ==> k in s.cache && s'.cache[k] == s.cache[k]
  {
  }

  lemma StoreKeepsInv(s: State, cid: nat)
    requires Inv(s) && Step(s, Store(cid)).Some?
    ensures Inv(Step(s, Store(cid)).value)
  {
    var s' := Step(s, Store(cid)).value;
    assert CallOk(s, cid);
    OthersKeepInv(s, s', cid);
    StoredIsOk(s, s', cid);
    assert CallOk(s', cid);
  }

  lemma ArriveKeepsInv(s: State, cid: nat, token: string, repo: Repo)
    requires Inv(s) && Step(s, Arrive(cid, token, repo)).Some?
    ensures Inv(Step(s, Arrive(cid, token, repo)).value)
  {
    OthersKeepInv(s, Step(s, Arrive(cid, token, repo)).value, cid);
  }

  lemma ValidateKeepsInv(s: State, cid: nat, reply: Reply)
    requires Inv(s) && Step(s, Validate(cid, reply)).Some?
    ensures Inv(Step(s, Validate(cid, reply)).value)
  {
    assert CallOk(s, cid);
    OthersKeepInv(s, Step(s, Validate(cid, reply)).value, cid);
  }

  lemma StepKeepsInv(s: State, e: Event)
    requires Inv(s) && Step(s, e).Some?
    ensures Inv(Step(s, e).value)
  {
    var s' := Step(s, e).value;
    match e {
      case Lookup(cid) => LookupKeepsInv(s, cid);
      case Store(cid) => StoreKeepsInv(s, cid);
      case Arrive(cid, token, repo) => ArriveKeepsInv(s, cid, token, repo);
      case Validate(cid, reply) => ValidateKeepsInv(s, cid, reply);
      case _ =>
        forall q | q in s'.calls ensures CallOk(s', q) {
          assert CallOk(s, q);
        }
        forall key | key in s'.cache ensures StoredOk(s', key) && StoredBy(s', key) {
          assert StoredOk(s, key) && StoredBy(s, key);
        }
    }
  }

  lemma {:induction false} RunKeepsInv(s: State, events: seq<Event>)
    requires Inv(s) && Run(s, events).Some?
    ensures Inv(Run(s, events).value)
    decreases |events|
  {
    if events != [] {
      StepKeepsInv(s, events[0]);
      RunKeepsInv(Step(s, events[0]).value, events[1..]);
    }
  }

  /** Every boolean returned says whether GitHub replied with 200: to this very call; or, if caching is enabled, to another
      call for the same token and repository that returned at most fifteen minutes before, unless the reply was a server
      error other than 501. */
  lemma ReturnsAreJustified(s: State, events: seq<Event>, cid: nat)
    requires Init(s) && Run(s, events).Some?
    ensures var s' := Run(s, events).value;
            cid in s'.calls && s'.calls[cid].pc.Returned? ==>
              var c := s'.calls[cid];
              && c.pc.source < |s'.answers|
              && var a := s'.answers[c.pc.source];
                 && a.token == c.token && a.repo == c.repo
                 && (c.pc.authorized <==> a.reply == Status(200))
                 && match c.pc.cachedAt
                    case None => a.cid == cid
                    case Some(stored) =>
                      && s'.enabled
                      && !(a.reply.Status? && 500 <= a.reply.code < 600 && a.reply.code != 501)
                      && ReturnedFresh(s', c.pc.source, c.pc.authorized, stored)
                      && stored <= c.pc.at <= stored + 900_000_000_000
  {
    RunKeepsInv(s, events);
    assert cid in Run(s, events).value.calls ==> CallOk(Run(s, events).value, cid);
  }

  // ----- what is answered from the cache -----

  lemma CallStays(s: State, e: Event, cid: nat)
    requires Step(s, e).Some? && cid in s.calls
    ensures var s' := Step(s, e).value;
            cid in s'.calls && s'.calls[cid].token == s.calls[cid].token && s'.calls[cid].repo == s.calls[cid].repo
  {
  }

  /** Calls are never forgotten and never change their token and repository. */
  lemma {:induction false} CallsStay(s: State, events: seq<Event>, cid: nat)
    requires Run(s, events).Some? && cid in s.calls
    ensures var s' := Run(s, events).value;
            cid in s'.calls && s'.calls[cid].token == s.calls[cid].token && s'.calls[cid].repo == s.calls[cid].repo
    decreases |events|
  {
    if events != [] {
      CallStays(s, events[0], cid);
      CallsStay(Step(s, events[0]).value, events[1..], cid);
    }
  }

  /** None of these events evicts the answer for this token and repository or stores another; `s` is the state after them. */
  predicate Spares(s: State, events: seq<Event>, token: string, repo: Repo)
    requires ByteRepo(repo)
  {
    forall e :: e in events ==>
      e != Evict(Key(token, repo)) &&
      (e.Store? && e.cid in s.calls ==> s.calls[e.cid].token != token || s.calls[e.cid].repo != repo)
  }

  lemma StoresOther(s: State, cid: nat, token: string, repo: Repo)
    requires Step(s, Store(cid)).Some? && ByteRepo(repo)
    requires s.calls[cid].token != token || s.calls[cid].repo != repo
    ensures var key, s' := Key(token, repo), Step(s, Store(cid)).value;
            (key in s'.cache <==> key in s.cache) && (key in s.cache ==> s'.cache[key] == s.cache[key])
  {
    var c := s.calls[cid];
    CacheKeyInjective(c.token, c.repo.owner, c.repo.name, token, repo.owner, repo.name);
  }

  lemma {:induction false} SparedStays(s: State, events: seq<Event>, token: string, repo: Repo)
    requires ByteRepo(repo) && Run(s, events).Some? && Key(token, repo) in s.cache
    requires Spares(Run(s, events).value, events, token, repo)
    ensures var key, s' := Key(token, repo), Run(s, events).value;
            key in s'.cache && s'.cache[key] == s.cache[key] && s'.enabled == s.enabled
    decreases |events|
  {
    if events != [] {
      var e, next := events[0], Step(s, events[0]).value;
      assert e in events && forall f :: f in events[1..] ==> f in events;
      if e.Store? {
        CallsStay(s, events, e.cid);
        StoresOther(s, e.cid, token, repo);
      }
      SparedStays(next, events[1..], token, repo);
    }
  }

  /** An answer that was stored is given again, without asking GitHub, to every call for the same token and repository that
      looks it up within fifteen minutes, unless it was evicted or replaced meanwhile. */
  lemma StoredIsAnswered(s: State, cid: nat, events: seq<Event>, other: nat)
    requires s.enabled && Step(s, Store(cid)).Some? && Run(s, [Store(cid)] + events).Some?
    requires var reply := s.answers[s.calls[cid].pc.source].reply;
             !(reply.Status? && 500 <= reply.code < 600 && reply.code != 501)
    requires var c := s.calls[cid]; var s' := Run(s, [Store(cid)] + events).value;
             && Spares(s', events, c.token, c.repo) && s'.now - s.now <= 900_000_000_000
             && other in s'.calls && s'.calls[other] == Call(c.token, c.repo, Looking)
    ensures var source := s.calls[cid].pc.source; var s' := Run(s, [Store(cid)] + events).value;
            && Step(s', Lookup(other)).Some?
            && Step(s', Lookup(other)).value.calls[other].pc
               == Returned(s.answers[source].reply == Status(200), source, Some(s.now), s'.now)
  {
    assert ([Store(cid)] + events)[1..] == events;
    var c := s.calls[cid];
    SparedStays(Step(s, Store(cid)).value, events, c.token, c.repo);
  }
}
