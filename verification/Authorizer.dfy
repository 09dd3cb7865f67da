/** The authorizer as the object it is: one call at a time, over its own cache. */
module Authorizer {
  import opened Options
  import opened Strings
  import opened AuthKey
  import opened AuthCache

  datatype Credentials = Credentials(username: string, token: string)

  datatype Decision = Unauthenticated | Malformed | Denied | Accepted

  function Relative(path: string): string {
    if HasPrefix(path, "/") then path[1..] else path
  }

  /** Owner and name: the first two segments of the path. */
  function RepoOf(path: string): Option<Repo> {
    var parts := Split(Relative(path), '/');
    if |parts| < 2 then None else Some(Repo(parts[0], parts[1]))
  }

  lemma FirstSegments(p: string)
    ensures |Split(p, '/')| >= 2 <==> '/' in p
    ensures '/' in p ==> var i := Index(p, '/'); var rest := p[i + 1..];
                         Split(p, '/')[0] == p[..i] && Split(p, '/')[1] == rest[..Index(rest, '/')]
  {
    var i := Index(p, '/');
    if i < |p| {
      var rest := p[i + 1..];
      assert Split(p, '/')[1] == Split(rest, '/')[0];
    } else {
      assert p == p[..i];
    }
  }

  lemma CutTwice(p: string, i: nat, j: nat)
    requires i < |p| && p[i] == '/' && j <= |p| - i - 1
    ensures p == p[..i] + "/" + p[i + 1..][..j] + p[i + 1..][j..]
  {
    var tail := p[i + 1..];
    assert tail == tail[..j] + tail[j..];
    assert p == p[..i] + "/" + tail;
  }

  /** Owner, name and what follows the name in a relative path. */
  lemma RelativeParts(p: string, owner: string, name: string) returns (rest: string)
    requires '/' in p && |Split(p, '/')| >= 2 && owner == Split(p, '/')[0] && name == Split(p, '/')[1]
    ensures p == owner + "/" + name + rest && (rest == "" || rest[0] == '/')
    ensures '/' !in owner && '/' !in name
  {
    FirstSegments(p);
    var i := Index(p, '/');
    var j := Index(p[i + 1..], '/');
    rest := p[i + 1..][j..];
    CutTwice(p, i, j);
  }

  lemma PartBytes(owner: string, name: string, rest: string)
    requires Bytes(owner + "/" + name + rest)
    ensures Bytes(owner) && Bytes(name)
  {
    var p := owner + "/" + name + rest;
    assert forall k :: 0 <= k < |owner| ==> owner[k] == p[k];
    assert forall k :: 0 <= k < |name| ==> name[k] == p[|owner| + 1 + k];
  }

  lemma Prefixed(path: string)
    requires path != ""
    ensures path == (if path[0] == '/' then "/" else "") + Relative(path)
    ensures Bytes(path) ==> Bytes(Relative(path))
  {
  }

  /** A path names a repository exactly when a slash follows its first segment. The owner is that segment, the name the
      next one; what follows does not matter. */
  lemma PathParts(path: string) returns (rest: string)
    requires Bytes(path)
    ensures RepoOf(path).Some? <==> '/' in (if path != "" && path[0] == '/' then path[1..] else path)
    ensures match RepoOf(path)
            case None => true
            case Some(repo) =>
              && ByteRepo(repo) && '/' !in repo.owner && '/' !in repo.name && (rest == "" || rest[0] == '/')
              && path != "" && path == (if path[0] == '/' then "/" else "") + (repo.owner + "/" + repo.name + rest)
  {
    var p := Relative(path);
    FirstSegments(p);
    rest := "";
    if '/' in p {
      var repo := RepoOf(path).value;
      rest := RelativeParts(p, repo.owner, repo.name);
      Prefixed(path);
      PartBytes(repo.owner, repo.name, rest);
    }
  }

  /** One more answer, stored or not, leaves the cache in order. */
  lemma AnswerStored(s: State, s': State, token: string, repo: Repo, reply: Reply, now: int)
    requires forall key :: key in s.cache ==> StoredOk(s, key)
    requires ByteRepo(repo) && s'.answers == s.answers + [Answer(token, repo, reply, 0)]
    requires s'.cache == s.cache ||
             (Judge(reply).cacheable
              && s'.cache == s.cache[Key(token, repo) := Stored(Judge(reply).authorized, now, |s.answers|)])
    ensures forall key :: key in s'.cache ==> StoredOk(s', key)
  {
    forall key | key in s'.cache ensures StoredOk(s', key) {
      assert key in s.cache ==> StoredOk(s, key);
    }
  }

  class CacheableAuthorizer {
    const enabled: bool
    var cache: map<string, Stored>
    /** Every answer the validator has given, for the record. */
    var answers: seq<Answer>

    ghost function State(now: int): State
      reads this
    {
      AuthCache.State(enabled, now, cache, map[], answers)
    }

    ghost predicate Valid()
      reads this
    {
      forall key :: key in cache ==> StoredOk(State(0), key)
    }

    constructor (enabled: bool)
      ensures Valid() && this.enabled == enabled && cache == map[] && answers == []
    {
      this.enabled := enabled;
      cache := map[];
      answers := [];
    }

    /** `isTokenValid` once GitHub has answered, or not. */
    static method IsTokenValid(reply: Reply) returns (authorized: bool, shouldCache: bool)
      ensures authorized <==> reply == Status(200)
      ensures !shouldCache <==> reply.Status? && 500 <= reply.code < 600 && reply.code != 501
    {
      match reply {
        case NoRequest => return false, true;
        case NoResponse => return false, true;
        case NoBody => return false, true;
        case Status(code) =>
          if code != 200 {
            if code >= 500 && code < 600 && code != 501 {
              return false, false;
            }
            return false, true;
          }
          return true, true;
      }
    }

    /** `isAuthorized` at time `now`; `reply` is what GitHub would answer if asked. For fifteen minutes after an answer was
        stored it is given again; otherwise GitHub is asked, and a server error other than 501 is not stored. */
    method IsAuthorized(token: string, repo: Repo, reply: Reply, now: int) returns (authorized: bool)
      requires Valid() && ByteRepo(repo)
      modifies this
      ensures Valid()
      ensures var key := Key(token, repo);
              if enabled && key in old(cache) && now - old(cache)[key].at <= 900_000_000_000 then
                && authorized == old(cache)[key].authorized
                && cache == old(cache) && answers == old(answers)
                && cache[key].source < |answers|
                && var a := answers[cache[key].source];
                   && a.token == token && a.repo == repo && (authorized <==> a.reply == Status(200))
                   && !(a.reply.Status? && 500 <= a.reply.code < 600 && a.reply.code != 501)
              else
                && (authorized <==> reply == Status(200))
                && answers == old(answers) + [Answer(token, repo, reply, 0)]
                && cache == if !enabled || (reply.Status? && 500 <= reply.code < 600 && reply.code != 501) then old(cache)
                            else old(cache)[key := Stored(authorized, now, |old(answers)|)]
    {
      var key := Key(token, repo);
      if enabled && key in cache && now - cache[key].at <= TTL {
        assert StoredOk(State(0), key);
        ghost var a := answers[cache[key].source];
        CacheKeyInjective(token, repo.owner, repo.name, a.token, a.repo.owner, a.repo.name);
        return cache[key].authorized;
      }
      var shouldCache;
      authorized, shouldCache := IsTokenValid(reply);
      if enabled && shouldCache {
        cache := cache[key := Stored(authorized, now, |answers|)];
      }
      answers := answers + [Answer(token, repo, reply, 0)];
      AnswerStored(old(State(0)), State(0), token, repo, reply, now);
    }

    /** `RequestAuthorizer`; `header` tells whether the request still carries its credentials afterwards. */
    method RequestAuthorizer(credentials: Option<Credentials>, path: string, reply: Reply, now: int)
      returns (d: Decision, header: bool)
      requires Valid() && Bytes(path)
      modifies this
      ensures Valid()
      ensures d == Unauthenticated <==> credentials.None?
      ensures d == Malformed <==> credentials.Some? && (credentials.value.username != "x-access-token" || RepoOf(path).None?)
      ensures header <==> credentials.Some? && d != Accepted
      ensures d == Accepted || d == Denied ==>
                && RepoOf(path).Some? && ByteRepo(RepoOf(path).value)
                && var key := Key(credentials.value.token, RepoOf(path).value);
                   d == Accepted <==> if enabled && key in old(cache) && now - old(cache)[key].at <= 900_000_000_000 then old(cache)[key].authorized
                                      else reply == Status(200)
      ensures d == Unauthenticated || d == Malformed ==> cache == old(cache) && answers == old(answers)
    {
      ghost var rest := PathParts(path);
      if credentials.None? {
        return Unauthenticated, false;
      }
      if credentials.value.username != "x-access-token" {
        return Malformed, true;
      }
      match RepoOf(path) {
        case None => return Malformed, true;
        case Some(repo) =>
          var authorized := IsAuthorized(credentials.value.token, repo, reply, now);
          if !authorized {
            return Denied, true;
          }
          return Accepted, false;
      }
    }
  }
}
