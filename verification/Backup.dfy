/** The backup process over one bucket: what each operation does to the objects in it. */
module Backup {
  import opened Clock
  import opened Options
  import opened Picks
  import opened Strings
  import opened Decimal
  import opened Bundles
  import opened Manifests

  /** One repository as a backup sees it: where its bundles go, its URL, and what this cycle brings. */
  datatype Repo = Repo(dir: string, url: string, cycle: Cycle)

  /** What fails while the manifests are written, collected or read. */
  datatype ManifestFaults = ManifestFaults(writeFails: bool, commitFails: bool, listFails: bool, stuck: set<string>)

  predicate Completes(f: ManifestFaults) {
    !f.writeFails && !f.commitFails && !f.listFails && f.stuck == {}
  }

  function NamesIn(bundles: map<string, set<string>>, dir: string): set<string> {
    if dir in bundles then bundles[dir] else {}
  }

  /** A repository is listed unless its bundles cannot be listed or a needed bundle cannot be written. */
  predicate IsListed(names: set<string>, c: Cycle) {
    !c.listFails && !(Newer(names, c.before) && c.writeFails)
  }

  /** `urls` are the URLs of those among the first `n` repositories, in order, whose bundles can be listed and that either
      have a bundle that is recent enough or can be written. */
  ghost predicate Lists(was: map<string, set<string>>, repos: seq<Repo>, n: nat, urls: seq<string>, ix: seq<nat>)
    requires n <= |repos|
  {
    && Increasing(ix) && Below(ix, n) && |ix| == |urls| && (forall i :: 0 <= i < |ix| ==> urls[i] == repos[ix[i]].url)
    && forall k :: 0 <= k < n ==>
         (k in ix <==> var c := repos[k].cycle;
                       !c.listFails && (!c.writeFails || exists x :: x in NamesIn(was, repos[k].dir) && StampOf(x) >= c.before))
  }

  lemma ListsNext(was: map<string, set<string>>, repos: seq<Repo>, n: nat, urls: seq<string>, ix: seq<nat>)
    requires n < |repos| && Lists(was, repos, n, urls, ix)
    ensures if IsListed(NamesIn(was, repos[n].dir), repos[n].cycle) then Lists(was, repos, n + 1, urls + [repos[n].url], ix + [n])
            else Lists(was, repos, n + 1, urls, ix)
  {
    assert forall k :: k in ix ==> k < n;
    PickNext(ix, n);
  }

  /** What is left of `was` when the names in `done` have been looked at and deletions in `stuck` fail. */
  function Left(was: map<string, string>, now: int, stuck: set<string>, done: set<string>): map<string, string> {
    map name | name in was && (Fresh(name, now) || name in stuck || name !in done) :: was[name]
  }

  lemma LeftNext(was: map<string, string>, now: int, stuck: set<string>, done: set<string>, name: string)
    requires name in was
    ensures Left(was, now, stuck, done + {name}) ==
            if Fresh(name, now) || name in stuck then Left(was, now, stuck, done) else Left(was, now, stuck, done) - {name}
  {
  }

  /** Every name once, in the order of the store. */
  predicate Enumerates(listing: seq<string>, names: set<string>) {
    multiset(listing) == multiset(names)
  }

  lemma EnumeratesRange(listing: seq<string>, names: set<string>)
    requires Enumerates(listing, names)
    ensures Range(listing) == names
  {
    assert forall x :: x in listing <==> x in multiset(listing);
    assert forall x :: x in names <==> x in multiset(names);
  }

  /** The first name after sorting is the last in byte order. */
  lemma SortedFirstIsLast(sorted: seq<string>, names: seq<string>)
    requires SortedDown(sorted) && multiset(sorted) == multiset(names) && names != []
    ensures sorted != [] && IsLast(sorted[0], Range(names)) && Range(sorted) == Range(names)
  {
    assert |sorted| == |multiset(sorted)| == |names|;
    assert forall x :: x in sorted <==> x in multiset(sorted);
    assert forall x :: x in names <==> x in multiset(names);
    forall x | x in Range(names) && x != sorted[0] ensures Less(x, sorted[0]) {
      assert x in sorted;
      var k :| 0 <= k < |sorted| && sorted[k] == x;
    }
  }

  /** Sorted without repetitions, the first name does not occur again. */
  lemma FirstOnce(sorted: seq<string>, names: set<string>)
    requires multiset(sorted) == multiset(names) && sorted != []
    ensures sorted[0] !in sorted[1..]
  {
    assert sorted == [sorted[0]] + sorted[1..];
    assert multiset(sorted)[sorted[0]] == 1 + multiset(sorted[1..])[sorted[0]];
    assert sorted[0] in multiset(names) && multiset(names)[sorted[0]] == 1;
  }

  /** Keeping the first name after sorting and deleting the others is the effect the filter lets through. */
  lemma SortedGc(sorted: seq<string>, listing: seq<string>, names: set<string>)
    requires SortedDown(sorted) && multiset(sorted) == multiset(listing) && Enumerates(listing, names)
    requires listing != [] && Numeric(listing[0])
    ensures sorted != [] && IsGcEffect(listing, GcEffect(Newest(StampOf(sorted[0]), sorted[0]), Range(sorted[1..])))
  {
    SortedFirstIsLast(sorted, listing);
    FirstOnce(sorted, names);
    assert sorted == [sorted[0]] + sorted[1..];
    assert Range(sorted) == Range(sorted[1..]) + {sorted[0]};
    assert Range(sorted[1..]) == Range(listing) - {sorted[0]};
  }

  /** On a directory of bundles, garbage collection answers the newest stamp and keeps its bundle. */
  lemma GcOfStamps(names: set<string>, listing: seq<string>, e: GcEffect, stuck: set<string>, kept: set<string>)
    requires AllStamps(names) && Range(listing) == names && IsGcEffect(listing, e)
    requires kept == names - (e.deleted - stuck)
    ensures Collected(names, stuck, kept)
    ensures if names == {} then e.result == NoBundle
            else e.result.Newest? && e.result.stamp == Top(names)
    ensures forall t: nat :: Newer(names, t) <==> names == {} || Top(names) < t
  {
    assert forall x :: x in listing <==> x in Range(listing);
    assert forall k :: 0 <= k < |listing| ==> listing[k] in Range(listing);
    if names != {} {
      assert listing[0] in listing;
      StampedIsNumeric(listing[0]);
      var last := e.result.name;
      assert kept == {last} + (names * stuck);
      LastIsNewest(listing, last);
      TopIs(names, last);
      assert last in names;
    }
  }

  class BackupBucket {
    /** Bundle names by repository directory. */
    var bundles: map<string, set<string>>
    /** Manifest texts by file name. */
    var manifests: map<string, string>
    /** The order in which the store lists a directory. */
    const list: set<string> -> seq<string>

    ghost predicate Valid()
      reads this
    {
      forall names :: Enumerates(list(names), names)
    }

    constructor (list: set<string> -> seq<string>)
      requires forall names :: Enumerates(list(names), names)
      ensures Valid() && this.list == list && bundles == map[] && manifests == map[]
    {
      this.list := list;
      this.bundles := map[];
      this.manifests := map[];
    }

    function Names(dir: string): set<string>
      reads this
    {
      NamesIn(bundles, dir)
    }

    /** Meant to drop what is not a bundle; looks at the first listed name for every element. */
    method IgnoreNonBundles(names: seq<string>) returns (found: seq<string>)
      ensures found == if names != [] && Numeric(names[0]) then names else []
    {
      found := [];
      var k := 0;
      while k < |names|
        invariant 0 <= k <= |names|
        invariant found == if names != [] && Numeric(names[0]) then names[..k] else []
      {
        if Numeric(names[0]) {
          assert names[..k + 1] == names[..k] + [names[k]];
          found := found + [names[k]];
        }
        k := k + 1;
      }
      assert names[..k] == names;
    }

    /** `gcBundle`, on any names whatever; deletions in `stuck` fail. */
    method GcBundle(dir: string, listFails: bool, stuck: set<string>) returns (result: GcResult, ghost effect: GcEffect)
      requires Valid()
      modifies this`bundles
      ensures Valid() && result == effect.result
      ensures if listFails then effect == GcEffect(ListError, {}) else IsGcEffect(list(old(Names(dir))), effect)
      ensures Names(dir) == old(Names(dir)) - (effect.deleted - stuck)
      ensures forall d :: d != dir ==> Names(d) == old(Names(d))
    {
      if listFails {
        return ListError, GcEffect(ListError, {});
      }
      var names := list(Names(dir));
      assert Enumerates(names, Names(dir));
      var found := IgnoreNonBundles(names);
      if found == [] {
        return NoBundle, GcEffect(NoBundle, {});
      }
      var sorted := SortDown(found);
      SortedGc(sorted, names, Names(dir));
      var deleted := Range(sorted[1..]) - stuck;
      bundles := bundles[dir := Names(dir) - deleted];
      result := Newest(StampOf(sorted[0]), sorted[0]);
      effect := GcEffect(result, Range(sorted[1..]));
    }

    /** `backupManagedRepo`: a failed write is reported, a failed commit is not. */
    method BackupManagedRepo(dir: string, time: nat, writeFails: bool, commitFails: bool) returns (ok: bool)
      requires Valid()
      modifies this`bundles
      ensures Valid() && ok == !writeFails
      ensures Names(dir) == if writeFails || commitFails then old(Names(dir)) else old(Names(dir)) + {Format(time)}
      ensures forall d :: d != dir ==> Names(d) == old(Names(d))
    {
      if writeFails {
        return false;
      }
      if !commitFails {
        bundles := bundles[dir := Names(dir) + {Format(time)}];
      }
      ok := true;
    }

    /** The part of `saveBackup` for one repository; `listed` tells whether its URL goes into the manifest. */
    method SaveRepo(dir: string, c: Cycle) returns (listed: bool)
      requires Valid() && AllStamps(Names(dir)) && Legal(c)
      modifies this`bundles
      ensures Valid() && CycleStep(old(Names(dir)), c, Names(dir))
      ensures c.listFails ==> !listed
      ensures !c.listFails && (exists x :: x in old(Names(dir)) && StampOf(x) >= c.before) ==> listed
      ensures !c.listFails && (forall x :: x in old(Names(dir)) ==> StampOf(x) < c.before) ==> listed == !c.writeFails
      ensures var uploads := !c.listFails && (forall x :: x in old(Names(dir)) ==> StampOf(x) < c.before)
                             && !c.writeFails && !c.commitFails;
              if uploads then Format(c.during) in Names(dir) && Names(dir) <= old(Names(dir)) + {Format(c.during)}
              else Names(dir) <= old(Names(dir))
      ensures forall d :: d != dir ==> Names(d) == old(Names(d))
    {
      var latest, e := GcBundle(dir, c.listFails, c.stuck);
      if latest.ListError? {
        return false;
      }
      ghost var names, kept := old(Names(dir)), Names(dir);
      assert Enumerates(list(names), names);
      EnumeratesRange(list(names), names);
      GcOfStamps(names, list(names), e, c.stuck, kept);
      var stamp := if latest.Newest? then latest.stamp else ZERO_TIME_UNIX;
      assert Newer(names, c.before) <==> stamp < c.before;
      if stamp >= c.before {
        return true;
      }
      listed := BackupManagedRepo(dir, c.during, c.writeFails, c.commitFails);
    }

    /** `writeManifestFile`: a failed write is reported and nothing is stored, a failed commit is not reported. */
    method WriteManifestFile(name: string, urls: seq<string>, writeFails: bool, commitFails: bool) returns (ok: bool)
      modifies this`manifests
      ensures ok == !(writeFails && urls != [])
      ensures manifests == if !ok || commitFails then old(manifests) else old(manifests)[name := Print(urls)]
    {
      var text := "";
      var k := 0;
      while k < |urls|
        invariant 0 <= k <= |urls| && text == Print(urls[..k]) && (writeFails ==> k == 0)
      {
        if writeFails {
          return false;
        }
        assert urls[..k + 1][..k] == urls[..k];
        text := text + (urls[k] + "\n");
        k := k + 1;
      }
      assert urls[..k] == urls;
      if !commitFails {
        manifests := manifests[name := text];
      }
      ok := true;
    }

    /** `garbageCollectOldManifests`; deletions in `stuck` fail. */
    method GarbageCollectOldManifests(now: int, listFails: bool, stuck: set<string>)
      requires Valid()
      modifies this`manifests
      ensures manifests == if listFails then old(manifests) else Left(old(manifests), now, stuck, old(manifests).Keys)
      ensures forall name :: name in manifests <==>
                name in old(manifests) &&
                (listFails || name in stuck || ParseInt(name).None? ||
                 SecondOf(ParseInt(name).value) * 1_000_000_000 >= now - 86_400_000_000_000)
    {
      if listFails {
        return;
      }
      ghost var was := manifests;
      var names := list(manifests.Keys);
      assert Enumerates(names, manifests.Keys);
      EnumeratesRange(names, manifests.Keys);
      var k := 0;
      while k < |names|
        invariant 0 <= k <= |names|
        invariant manifests == Left(was, now, stuck, Range(names[..k]))
      {
        var name := names[k];
        assert name in Range(names);
        assert names[..k + 1] == names[..k] + [name];
        assert Range(names[..k + 1]) == Range(names[..k]) + {name};
        LeftNext(was, now, stuck, Range(names[..k]), name);
        if Numeric(name) && SecondOf(StampOf(name)) * SECOND < now - CLEAN_UP && name !in stuck {
          manifests := manifests - {name};
        }
        k := k + 1;
      }
      assert names[..k] == names;
    }

    /** The loop of `saveBackup` over the managed repositories. */
    method SaveRepos(repos: seq<Repo>) returns (urls: seq<string>, ghost ix: seq<nat>)
      requires Valid()
      requires forall i, j :: 0 <= i < j < |repos| ==> repos[i].dir != repos[j].dir
      requires forall k :: 0 <= k < |repos| ==> AllStamps(Names(repos[k].dir)) && Legal(repos[k].cycle)
      modifies this`bundles
      ensures Valid()
      ensures forall k :: 0 <= k < |repos| ==>
                CycleStep(old(Names(repos[k].dir)), repos[k].cycle, Names(repos[k].dir))
      ensures forall d :: (forall k :: 0 <= k < |repos| ==> repos[k].dir != d) ==> Names(d) == old(Names(d))
      ensures Lists(old(bundles), repos, |repos|, urls, ix)
    {
      urls, ix := [], [];
      var k := 0;
      while k < |repos|
        invariant 0 <= k <= |repos| && Valid()
        invariant Lists(old(bundles), repos, k, urls, ix)
        invariant forall j :: 0 <= j < k ==> CycleStep(old(Names(repos[j].dir)), repos[j].cycle, Names(repos[j].dir))
        invariant forall d :: (forall j :: 0 <= j < k ==> repos[j].dir != d) ==> Names(d) == old(Names(d))
      {
        ListsNext(old(bundles), repos, k, urls, ix);
        assert Names(repos[k].dir) == old(Names(repos[k].dir));
        var listed := SaveRepo(repos[k].dir, repos[k].cycle);
        if listed {
          urls, ix := urls + [repos[k].url], ix + [k];
        }
        k := k + 1;
      }
    }

    /** `saveBackup`: every repository in turn, then a manifest of those that are backed up, then the old manifests. */
    method SaveBackup(repos: seq<Repo>, now: nat, faults: ManifestFaults)
      returns (urls: seq<string>, ghost ix: seq<nat>)
      requires Valid() && now / SECOND <= LAST_SECOND
      requires forall i, j :: 0 <= i < j < |repos| ==> repos[i].dir != repos[j].dir
      requires forall k :: 0 <= k < |repos| ==> AllStamps(Names(repos[k].dir)) && Legal(repos[k].cycle)
      modifies this
      ensures Valid()
      ensures forall k :: 0 <= k < |repos| ==>
                CycleStep(old(Names(repos[k].dir)), repos[k].cycle, Names(repos[k].dir))
      ensures forall d :: (forall k :: 0 <= k < |repos| ==> repos[k].dir != d) ==> Names(d) == old(Names(d))
      ensures Lists(old(bundles), repos, |repos|, urls, ix)
      ensures var name := ManifestName(now);
              manifests ==
                if faults.writeFails && urls != [] then old(manifests)
                else
                  var written := if faults.commitFails then old(manifests) else old(manifests)[name := Print(urls)];
                  if faults.listFails then written else Left(written, now, faults.stuck, written.Keys)
      ensures Completes(faults) ==>
                && ManifestName(now) in manifests
                && manifests == Surviving(old(manifests)[ManifestName(now) := Print(urls)], now)
    {
      urls, ix := SaveRepos(repos);
      var ok := WriteManifestFile(ManifestName(now), urls, faults.writeFails, faults.commitFails);
      if !ok {
        return;
      }
      OwnManifestSurvives(now);
      ghost var written := manifests;
      GarbageCollectOldManifests(now, faults.listFails, faults.stuck);
      assert Left(written, now, {}, written.Keys) == Surviving(written, now);
    }

    /** `readManifest`, into the set of URLs found so far. */
    method ReadManifest(name: string, found: set<string>) returns (urls: set<string>)
      requires name in manifests
      ensures urls == found + Scan(manifests[name])
    {
      var lines := Lines(manifests[name]);
      urls := found;
      var k := 0;
      while k < |lines|
        invariant 0 <= k <= |lines|
        invariant urls == found + set l | l in lines[..k] :: TrimSpace(l)
      {
        assert lines[..k + 1] == lines[..k] + [lines[k]];
        urls := urls + {TrimSpace(lines[k])};
        k := k + 1;
      }
      assert lines[..k] == lines;
    }

    /** `readRepoList`: nothing if the listing fails; manifests that cannot be opened are skipped. */
    method ReadRepoList(listFails: bool, unreadable: set<string>) returns (r: Option<set<string>>)
      requires Valid()
      ensures r == if listFails then None else Some(AllUrls(manifests - unreadable))
    {
      if listFails {
        return None;
      }
      var names := list(manifests.Keys);
      assert Enumerates(names, manifests.Keys);
      EnumeratesRange(names, manifests.Keys);
      assert forall n :: n in names <==> n in Range(names);
      ghost var readable := manifests - unreadable;
      var urls: set<string> := {};
      var k := 0;
      while k < |names|
        invariant 0 <= k <= |names|
        invariant forall u :: u in urls ==> u in AllUrls(readable)
        invariant forall n, u :: n in names[..k] && n in readable && u in Scan(readable[n]) ==> u in urls
      {
        assert names[..k + 1] == names[..k] + [names[k]];
        ghost var before := urls;
        if names[k] !in unreadable {
          urls := ReadManifest(names[k], urls);
          forall u | u in urls ensures u in AllUrls(readable) {
            assert u in before || (names[k] in readable && u in Scan(readable[names[k]]));
          }
        }
        k := k + 1;
      }
      assert names[..k] == names;
      assert urls == AllUrls(readable);
      r := Some(urls);
    }
  }

  /** Exactly when is a repository listed in a manifest although the bucket then has no bundle of it?
      When it had none before and the write of the first one succeeds but its commit, whose error is dropped, fails. */
  lemma ListedWithoutBundleExactly(names: set<string>, c: Cycle, names': set<string>)
    requires AllStamps(names) && Legal(c) && CycleStep(names, c, names')
    ensures IsListed(names, c) && names' == {} <==> names == {} && !c.listFails && !c.writeFails && c.commitFails
  {
    CycleKeeps(names, c, names');
    assert names == {} ==> Newer(names, c.before);
    if names == {} && Commits(names, c) {
      assert Format(c.during) in names';
    }
  }
}
