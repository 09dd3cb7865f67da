/** The bundles of one repository in the backup bucket, over repeated backup cycles. */
module Bundles {
  import opened Options
  import opened Decimal

  /** `time.Time{}.Unix()`: what `gcBundle` answers when there is no bundle. */
  const ZERO_TIME_UNIX := -62135596800

  /** A name written by `backupManagedRepo` for a time below 10^12 seconds. */
  predicate Stamped(name: string) {
    |name| == WIDTH && Digits(name)
  }

  predicate Numeric(name: string) {
    ParseInt(name).Some?
  }

  function StampOf(name: string): int {
    ParseAnyway(name)
  }

  lemma {:induction false} ValueBound(s: string)
    requires Digits(s)
    ensures Value(s) < Pow10(|s|)
  {
    if s != "" {
      ValueBound(s[..|s| - 1]);
      assert IsDigit(s[|s| - 1]);
    }
  }

  lemma StampedIsNumeric(name: string)
    requires Stamped(name)
    ensures Numeric(name) && StampOf(name) == Value(name) && Value(name) < STAMP_LIMIT
  {
    assert IsDigit(name[0]);
    LimitIsPow10();
    ValueBound(name);
  }

  lemma StampedOrder(a: string, b: string)
    requires Stamped(a) && Stamped(b)
    ensures Less(a, b) <==> StampOf(a) < StampOf(b)
    ensures a == b <==> StampOf(a) == StampOf(b)
  {
    StampedIsNumeric(a);
    StampedIsNumeric(b);
    LessIsNumeric(a, b);
  }

  /** The greatest name in byte order. */
  ghost predicate IsLast(name: string, names: set<string>) {
    name in names && forall x :: x in names && x != name ==> Less(x, name)
  }

  predicate SortedDown(names: seq<string>) {
    forall i, j :: 0 <= i < j < |names| ==> names[i] == names[j] || Less(names[j], names[i])
  }

  lemma InsertedDown(sorted: seq<string>, name: string, k: nat)
    requires SortedDown(sorted) && k <= |sorted|
    requires forall j :: 0 <= j < k ==> !Less(sorted[j], name)
    requires k < |sorted| ==> Less(sorted[k], name)
    ensures SortedDown(sorted[..k] + [name] + sorted[k..])
  {
    var r := sorted[..k] + [name] + sorted[k..];
    forall j | k <= j < |sorted| ensures Less(sorted[j], name) {
      if k < j && sorted[j] != sorted[k] {
        LessTransitive(sorted[j], sorted[k], name);
      }
    }
    forall i, j | 0 <= i < j < |r| ensures r[i] == r[j] || Less(r[j], r[i]) {
      if i < k && j == k {
        LessTotal(sorted[i], name);
      } else if i < k < j {
        assert r[j] == sorted[j - 1];
      }
    }
  }

  method InsertDown(sorted: seq<string>, name: string) returns (r: seq<string>)
    requires SortedDown(sorted)
    ensures SortedDown(r) && multiset(r) == multiset(sorted) + multiset{name}
  {
    var k := 0;
    while k < |sorted| && !Less(sorted[k], name)
      invariant 0 <= k <= |sorted|
      invariant forall j :: 0 <= j < k ==> !Less(sorted[j], name)
    {
      k := k + 1;
    }
    r := sorted[..k] + [name] + sorted[k..];
    assert sorted == sorted[..k] + sorted[k..];
    InsertedDown(sorted, name, k);
  }

  /** `sort.Sort(sort.Reverse(...))`. */
  method SortDown(names: seq<string>) returns (sorted: seq<string>)
    ensures SortedDown(sorted) && multiset(sorted) == multiset(names)
  {
    sorted := [];
    var k := 0;
    while k < |names|
      invariant 0 <= k <= |names| && SortedDown(sorted)
      invariant multiset(sorted) == multiset(names[..k])
    {
      assert names[..k + 1] == names[..k] + [names[k]];
      sorted := InsertDown(sorted, names[k]);
      k := k + 1;
    }
    assert names[..k] == names;
  }

  datatype GcResult = ListError | NoBundle | Newest(stamp: int, name: string)

  /** What one `gcBundle` does: answer, and names asked to be deleted. */
  datatype GcEffect = GcEffect(result: GcResult, deleted: set<string>)

  function Range(names: seq<string>): set<string> {
    set x | x in names
  }

  /** The effect as the code has it: the filter looks at the first listed name only. */
  ghost predicate IsGcEffect(listing: seq<string>, e: GcEffect) {
    if listing == [] || !Numeric(listing[0]) then e == GcEffect(NoBundle, {})
    else
      && e.result.Newest?
      && IsLast(e.result.name, Range(listing))
      && e.result.stamp == StampOf(e.result.name)
      && e.deleted == Range(listing) - {e.result.name}
  }

  /** The effect as it is meant: keep the newest bundle, delete the older ones, leave other objects alone. */
  ghost predicate MeantGcEffect(listing: seq<string>, e: GcEffect) {
    if forall x :: x in listing ==> !Numeric(x) then e == GcEffect(NoBundle, {})
    else
      && e.result.Newest?
      && e.result.name in listing && Numeric(e.result.name)
      && e.result.stamp == StampOf(e.result.name)
      && (forall x :: x in listing && Numeric(x) ==> StampOf(x) <= e.result.stamp)
      && e.deleted == (set x | x in listing && Numeric(x)) - {e.result.name}
  }

  predicate AllStamped(listing: seq<string>) {
    forall x :: x in listing ==> Stamped(x)
  }

  predicate NoneNumeric(listing: seq<string>) {
    forall x :: x in listing ==> !Numeric(x)
  }

  lemma LastIsNewest(listing: seq<string>, name: string)
    requires AllStamped(listing) && IsLast(name, Range(listing))
    ensures forall x :: x in listing ==> StampOf(x) <= StampOf(name)
  {
    forall x | x in listing ensures StampOf(x) <= StampOf(name) {
      assert x in Range(listing);
      StampedOrder(x, name);
    }
  }

  /** The last name in byte order also has the greatest stamp. */
  ghost predicate LastHasTop(listing: seq<string>) {
    forall name :: IsLast(name, Range(listing)) ==> forall x :: x in listing ==> StampOf(x) <= StampOf(name)
  }

  lemma OneLast(a: string, b: string, names: set<string>)
    requires IsLast(a, names) && IsLast(b, names)
    ensures a == b
  {
    LessTotal(a, b);
  }

  /** On any directory whatever: `gcBundle` does what is meant exactly when no name is a number, or when
      all are and the last one in byte order has the greatest stamp. */
  lemma GcRightIff(listing: seq<string>, e: GcEffect)
    requires IsGcEffect(listing, e)
    ensures MeantGcEffect(listing, e) <==>
            NoneNumeric(listing) || ((forall x :: x in listing ==> Numeric(x)) && LastHasTop(listing))
  {
    if !NoneNumeric(listing) {
      assert listing[0] in listing;
      var numbers := set x | x in listing && Numeric(x);
      if Numeric(listing[0]) {
        var last := e.result.name;
        assert last in Range(listing);
        forall name | IsLast(name, Range(listing)) ensures name == last {
          OneLast(name, last, Range(listing));
        }
        if forall x :: x in listing ==> Numeric(x) {
          assert Range(listing) == numbers;
        } else {
          var odd :| odd in listing && !Numeric(odd);
          assert odd in Range(listing) && odd !in numbers;
          assert odd == last || odd in e.deleted;
        }
      }
    }
  }

  /** Among the names that backups write below 10^12 seconds: exactly when the directory holds nothing but bundles,
      or no bundle at all. */
  lemma GcRightExactly(listing: seq<string>, e: GcEffect)
    requires forall x :: x in listing && Numeric(x) ==> Stamped(x)
    requires IsGcEffect(listing, e)
    ensures MeantGcEffect(listing, e) <==> AllStamped(listing) || NoneNumeric(listing)
  {
    GcRightIff(listing, e);
    if AllStamped(listing) {
      forall x | x in listing ensures Numeric(x) {
        StampedIsNumeric(x);
      }
      forall name | IsLast(name, Range(listing)) ensures forall x :: x in listing ==> StampOf(x) <= StampOf(name) {
        LastIsNewest(listing, name);
      }
    }
  }

  /** One backup cycle of one repository: what fails, and the update times read before and during the backup. */
  datatype Cycle = Cycle(listFails: bool, stuck: set<string>, before: nat, during: nat, writeFails: bool, commitFails: bool)

  /** No bundle is as new as `time`. */
  predicate Newer(names: set<string>, time: nat) {
    forall x :: x in names ==> StampOf(x) < time
  }

  predicate Commits(names: set<string>, c: Cycle) {
    !c.listFails && Newer(names, c.before) && !c.writeFails && !c.commitFails
  }

  /** Garbage collection keeps the last name and those whose deletion fails. */
  ghost predicate Collected(names: set<string>, stuck: set<string>, kept: set<string>) {
    if names == {} then kept == {}
    else exists last :: IsLast(last, names) && kept == {last} + (names * stuck)
  }

  /** The bundle names left by a cycle on a directory of bundles. */
  ghost predicate CycleStep(names: set<string>, c: Cycle, names': set<string>) {
    if c.listFails then names' == names
    else
      exists kept :: Collected(names, c.stuck, kept) &&
        names' == if Commits(names, c) then kept + {Format(c.during)} else kept
  }

  // ----- over many cycles -----

  ghost predicate AllStamps(names: set<string>) {
    forall x :: x in names ==> Stamped(x)
  }

  ghost predicate IsNewest(name: string, names: set<string>) {
    name in names && forall x :: x in names ==> StampOf(x) <= StampOf(name)
  }

  lemma {:induction false} NewestExists(names: set<string>)
    requires names != {}
    ensures exists name :: IsNewest(name, names)
    decreases |names|
  {
    var x :| x in names;
    var rest := names - {x};
    assert forall z :: z in names ==> z == x || z in rest;
    if rest == {} {
      assert IsNewest(x, names);
    } else {
      NewestExists(rest);
      var y :| IsNewest(y, rest);
      assert IsNewest(if StampOf(x) < StampOf(y) then y else x, names);
    }
  }

  /** The newest stamp of a repository; -1 when it has no bundle. */
  ghost function Top(names: set<string>): int {
    if names == {} then -1
    else
      NewestExists(names);
      var name :| IsNewest(name, names);
      StampOf(name)
  }

  predicate Legal(c: Cycle) {
    c.before <= c.during < STAMP_LIMIT
  }

  lemma FormatStamped(n: nat)
    requires n < STAMP_LIMIT
    ensures Stamped(Format(n)) && StampOf(Format(n)) == n
  {
    FormatWidth(n);
    ParseFormat(n);
  }

  lemma AtMostTwo(names: set<string>, a: string, b: string)
    requires names <= {a, b}
    ensures |names| <= 2
  {
    assert names - {a} - {b} == {};
    assert |names - {a}| <= 1;
  }

  lemma TopIs(names: set<string>, name: string)
    requires IsNewest(name, names)
    ensures Top(names) == StampOf(name)
  {
  }

  /** Collecting keeps the newest bundle; with working deletes, only that one. */
  lemma CollectedKeeps(names: set<string>, stuck: set<string>, kept: set<string>)
    requires AllStamps(names) && Collected(names, stuck, kept)
    ensures kept <= names && Top(kept) == Top(names) && (names != {} ==> kept != {})
    ensures stuck == {} ==> exists a :: kept <= {a}
  {
    if names != {} {
      var last :| IsLast(last, names) && kept == {last} + (names * stuck);
      forall x | x in names ensures StampOf(x) <= StampOf(last) {
        StampedOrder(x, last);
      }
      TopIs(names, last);
      TopIs(kept, last);
      assert stuck == {} ==> kept <= {last};
    } else {
      assert kept <= {""};
    }
  }

  lemma UploadRaises(kept: set<string>, time: nat, bound: nat)
    requires AllStamps(kept) && bound <= time < STAMP_LIMIT && Newer(kept, bound)
    ensures AllStamps(kept + {Format(time)}) && Top(kept) < Top(kept + {Format(time)}) == time
  {
    FormatStamped(time);
    TopIs(kept + {Format(time)}, Format(time));
  }

  /** What one cycle keeps: the newest stamp does not go back, a commit raises it, the last bundle is never lost. */
  lemma CycleKeeps(names: set<string>, c: Cycle, names': set<string>)
    requires AllStamps(names) && Legal(c) && CycleStep(names, c, names')
    ensures AllStamps(names') && (names != {} ==> names' != {})
    ensures Top(names) <= Top(names')
    ensures Commits(names, c) ==> Top(names) < Top(names') == c.during
    ensures !c.listFails && c.stuck == {} ==> |names'| <= 2
  {
    if !c.listFails {
      var kept :| Collected(names, c.stuck, kept) && names' == if Commits(names, c) then kept + {Format(c.during)} else kept;
      CollectedKeeps(names, c.stuck, kept);
      if Commits(names, c) {
        UploadRaises(kept, c.during, c.before);
      }
      if c.stuck == {} {
        var a :| kept <= {a};
        AtMostTwo(names', a, Format(c.during));
      }
    }
  }

  /** A history of a repository's bundles: `states[k]` before cycle `k`. */
  ghost predicate History(states: seq<set<string>>, cycles: seq<Cycle>) {
    && |states| == |cycles| + 1
    && AllStamps(states[0])
    && forall k :: 0 <= k < |cycles| ==> Legal(cycles[k]) && CycleStep(states[k], cycles[k], states[k + 1])
  }

  lemma HistoryStep(states: seq<set<string>>, cycles: seq<Cycle>, k: nat)
    requires History(states, cycles) && k < |cycles| && AllStamps(states[k])
    ensures AllStamps(states[k + 1]) && (states[k] != {} ==> states[k + 1] != {})
    ensures Top(states[k]) <= Top(states[k + 1])
    ensures Commits(states[k], cycles[k]) ==> Top(states[k]) < Top(states[k + 1]) == cycles[k].during
    ensures cycles[k].stuck == {} && |states[k]| <= 2 ==> |states[k + 1]| <= 2
  {
    CycleKeeps(states[k], cycles[k], states[k + 1]);
  }

  lemma {:induction false} HistoryStamped(states: seq<set<string>>, cycles: seq<Cycle>, k: nat)
    requires History(states, cycles) && k < |states|
    ensures AllStamps(states[k])
  {
    if 0 < k {
      HistoryStamped(states, cycles, k - 1);
      HistoryStep(states, cycles, k - 1);
    }
  }

  /** Over any sequence of cycles with any upload, delete and listing failures the newest stamp never decreases,
      and a repository that has a bundle keeps having one. */
  lemma {:induction false} BackupsNeverRegress(states: seq<set<string>>, cycles: seq<Cycle>, i: nat, j: nat)
    requires History(states, cycles) && i <= j < |states|
    ensures AllStamps(states[j]) && AllStamps(states[i])
    ensures Top(states[i]) <= Top(states[j])
    ensures states[i] != {} ==> states[j] != {}
    decreases j
  {
    HistoryStamped(states, cycles, i);
    if i < j {
      BackupsNeverRegress(states, cycles, i, j - 1);
      HistoryStep(states, cycles, j - 1);
    }
  }

  /** Each successful backup strictly raises the newest stamp of everything before it. */
  lemma CommitsRaise(states: seq<set<string>>, cycles: seq<Cycle>, i: nat, k: nat)
    requires History(states, cycles) && i <= k < |cycles| && Commits(states[k], cycles[k])
    ensures Top(states[i]) < Top(states[k + 1]) == cycles[k].during
  {
    BackupsNeverRegress(states, cycles, i, k);
    HistoryStep(states, cycles, k);
  }

  /** Without delete failures at most two bundles exist after every cycle. */
  lemma {:induction false} AtMostTwoBundles(states: seq<set<string>>, cycles: seq<Cycle>, k: nat)
    requires History(states, cycles) && k < |states| && |states[0]| <= 2
    requires forall j :: 0 <= j < k ==> cycles[j].stuck == {}
    ensures |states[k]| <= 2
    decreases k
  {
    if 0 < k {
      AtMostTwoBundles(states, cycles, k - 1);
      HistoryStamped(states, cycles, k - 1);
      HistoryStep(states, cycles, k - 1);
    }
  }
}
