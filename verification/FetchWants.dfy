/** Reading the wants out of a fetch command, and checking them against the local repository. */
module FetchWants {
  import opened Clock
  import opened Options
  import opened Picks
  import opened Strings
  import opened Repository

  const OID_LENGTH := 40

  predicate IsHex(c: char) {
    '0' <= c <= '9' || 'a' <= c <= 'f' || 'A' <= c <= 'F'
  }

  function Lower(c: char): char {
    if 'A' <= c <= 'F' then c - 'A' + 'a' else c
  }

  /** `git.NewOid`: forty hex digits in either case. */
  function NewOid(s: string): Option<Oid> {
    if |s| == OID_LENGTH && forall c :: c in s ==> IsHex(c) then Some(seq(|s|, i requires 0 <= i < |s| => Lower(s[i])))
    else None
  }

  datatype Line = Hash(oid: Oid) | BadHash | RefName(name: string) | Other

  /** What one argument of a fetch command asks for. */
  function ReadLine(s: string): Line {
    if HasPrefix(s, "want ") then
      var parts := Split(s, ' ');
      if |parts| < 2 then BadHash
      else
        match NewOid(TrimSpace(parts[1]))
        case Some(oid) => Hash(oid)
        case None => BadHash
    else if HasPrefix(s, "want-ref ") then
      var parts := Split(s, ' ');
      if |parts| < 2 then BadHash else RefName(TrimSpace(parts[1]))
    else Other
  }

  predicate HexDigits(t: string) {
    forall k :: 0 <= k < |t| ==> '0' <= t[k] <= '9' || 'a' <= t[k] <= 'f' || 'A' <= t[k] <= 'F'
  }

  /** A want line is read as a hash if and only if its second field, trimmed, is forty hex digits; the hash is the field
      in lower case. */
  lemma WantLineExactly(field: string, tail: string)
    requires ' ' !in field && (tail == "" || tail[0] == ' ')
    ensures var t := TrimSpace(field); var line := ReadLine("want" + " " + (field + tail));
            && (line.Hash? <==> |t| == 40 && HexDigits(t))
            && (line.BadHash? <==> !(|t| == 40 && HexDigits(t)))
            && (line.Hash? ==> |line.oid| == 40 && forall k :: 0 <= k < 40 ==>
                  line.oid[k] == if 'A' <= t[k] <= 'F' then (t[k] as int + 32) as char else t[k])
  {
    var s := "want" + " " + (field + tail);
    assert s[..5] == "want ";
    SecondPart("want", field, tail, ' ');
    var t := TrimSpace(field);
    assert forall k :: 0 <= k < |t| ==> t[k] in t;
    assert HexDigits(t) ==> forall c :: c in t ==> IsHex(c);
    assert (forall c :: c in t ==> IsHex(c)) ==> HexDigits(t);
  }

  /** A want-ref line asks for its second field, trimmed. */
  lemma RefLineExactly(field: string, tail: string)
    requires ' ' !in field && (tail == "" || tail[0] == ' ')
    ensures ReadLine("want-ref" + " " + (field + tail)) == RefName(TrimSpace(field))
  {
    var s := "want-ref" + " " + (field + tail);
    assert s[..9] == "want-ref " && s[4] == '-';
    SecondPart("want-ref", field, tail, ' ');
  }

  /** The lines of a command, in order; chunks without an argument say nothing. */
  function LineOf(arg: Option<string>): Line {
    match arg
    case None => Other
    case Some(s) => ReadLine(s)
  }

  /** Every other line, `have` lines among them, asks for nothing, and so does a chunk without an argument. */
  lemma OtherLineExactly(s: string)
    ensures LineOf(None) == Other && LineOf(Some(s)) == ReadLine(s)
    ensures ReadLine(s) == Other <==> (forall rest :: s != "want " + rest && s != "want-ref " + rest)
  {
    if HasPrefix(s, "want ") {
      assert s == "want " + s[5..];
    } else if HasPrefix(s, "want-ref ") {
      assert s == "want-ref " + s[9..];
    } else {
      forall rest ensures s != "want " + rest && s != "want-ref " + rest {
        assert ("want " + rest)[..5] == "want " && ("want-ref " + rest)[..9] == "want-ref ";
      }
    }
  }

  datatype Wants = Wants(hashes: seq<Oid>, refs: seq<string>) | Invalid

  function HashIn(line: Line): seq<Oid> {
    if line.Hash? then [line.oid] else []
  }

  function RefIn(line: Line): seq<string> {
    if line.RefName? then [line.name] else []
  }

  /** What the arguments of a command ask for, in order. */
  function LinesOf(args: seq<Option<string>>): seq<Line> {
    seq(|args|, k requires 0 <= k < |args| => LineOf(args[k]))
  }

  /** The hashes among the first `n` lines. */
  function HashesOf(lines: seq<Line>, n: nat): seq<Oid>
    requires n <= |lines|
  {
    if n == 0 then [] else HashesOf(lines, n - 1) + HashIn(lines[n - 1])
  }

  function RefsOf(lines: seq<Line>, n: nat): seq<string>
    requires n <= |lines|
  {
    if n == 0 then [] else RefsOf(lines, n - 1) + RefIn(lines[n - 1])
  }

  /** One more line: the first want that is not a hash decides. */
  function Take(w: Wants, line: Line): Wants {
    if w.Invalid? || line.BadHash? then Invalid else Wants(w.hashes + HashIn(line), w.refs + RefIn(line))
  }

  function WantsOf(lines: seq<Line>, n: nat): Wants
    requires n <= |lines|
  {
    if n == 0 then Wants([], []) else Take(WantsOf(lines, n - 1), lines[n - 1])
  }

  lemma {:induction false} InvalidStays(lines: seq<Line>, k: nat)
    requires k <= |lines| && WantsOf(lines, k).Invalid?
    ensures WantsOf(lines, |lines|).Invalid?
    decreases |lines| - k
  {
    if k < |lines| {
      InvalidStays(lines, k + 1);
    }
  }

  lemma {:induction false} WantsOfExactly(lines: seq<Line>, n: nat)
    requires n <= |lines|
    ensures WantsOf(lines, n).Invalid? <==> exists k :: 0 <= k < n && lines[k] == BadHash
    ensures WantsOf(lines, n).Wants? ==> WantsOf(lines, n) == Wants(HashesOf(lines, n), RefsOf(lines, n))
  {
    if n > 0 {
      WantsOfExactly(lines, n - 1);
    }
  }

  /** Where the hashes come from: from the want lines, each once and in order. */
  lemma {:induction false} HashesPicked(lines: seq<Line>, n: nat) returns (ix: seq<nat>)
    requires n <= |lines|
    ensures Increasing(ix) && Below(ix, n) && |ix| == |HashesOf(lines, n)|
    ensures forall i :: 0 <= i < |ix| ==> lines[ix[i]] == Hash(HashesOf(lines, n)[i])
    ensures forall k :: 0 <= k < n ==> (k in ix <==> lines[k].Hash?)
  {
    if n == 0 {
      ix := [];
    } else {
      ix := HashesPicked(lines, n - 1);
      assert forall k :: k in ix ==> k < n - 1;
      PickNext(ix, n - 1);
      if lines[n - 1].Hash? {
        ix := ix + [n - 1];
      }
    }
  }

  /** Where the refs come from: from the want-ref lines, each once and in order. */
  lemma {:induction false} RefsPicked(lines: seq<Line>, n: nat) returns (ix: seq<nat>)
    requires n <= |lines|
    ensures Increasing(ix) && Below(ix, n) && |ix| == |RefsOf(lines, n)|
    ensures forall i :: 0 <= i < |ix| ==> lines[ix[i]] == RefName(RefsOf(lines, n)[i])
    ensures forall k :: 0 <= k < n ==> (k in ix <==> lines[k].RefName?)
  {
    if n == 0 {
      ix := [];
    } else {
      ix := RefsPicked(lines, n - 1);
      assert forall k :: k in ix ==> k < n - 1;
      PickNext(ix, n - 1);
      if lines[n - 1].RefName? {
        ix := ix + [n - 1];
      }
    }
  }

  /** The loop of `parseFetchWants`. */
  method CollectWants(args: seq<Option<string>>) returns (r: Wants)
    ensures r == WantsOf(LinesOf(args), |LinesOf(args)|)
  {
    ghost var lines := LinesOf(args);
    var hashes, refs := [], [];
    var k := 0;
    while k < |args|
      invariant 0 <= k <= |args| && WantsOf(lines, k) == Wants(hashes, refs)
    {
      var line := LineOf(args[k]);
      assert WantsOf(lines, k + 1) == Take(WantsOf(lines, k), line);
      assert hashes + [] == hashes && refs + [] == refs;
      match line {
        case Hash(oid) => hashes := hashes + [oid];
        case BadHash =>
          InvalidStays(lines, k + 1);
          return Invalid;
        case RefName(name) => refs := refs + [name];
        case Other =>
      }
      k := k + 1;
    }
    r := Wants(hashes, refs);
  }

  /** `parseFetchWants`: an error exactly when some want is not a hash; otherwise the hashes of the want lines `ix` and the
      refs of the want-ref lines `jx`, in order. */
  method ParseFetchWants(args: seq<Option<string>>) returns (r: Wants, ghost ix: seq<nat>, ghost jx: seq<nat>)
    ensures r.Invalid? <==> exists k :: 0 <= k < |args| && LinesOf(args)[k] == BadHash
    ensures Increasing(ix) && Below(ix, |args|) && Increasing(jx) && Below(jx, |args|)
    ensures r.Wants? ==> |r.hashes| == |ix| && forall i :: 0 <= i < |ix| ==> LinesOf(args)[ix[i]] == Hash(r.hashes[i])
    ensures r.Wants? ==> |r.refs| == |jx| && forall j :: 0 <= j < |jx| ==> LinesOf(args)[jx[j]] == RefName(r.refs[j])
    ensures forall k :: 0 <= k < |args| ==>
              (k in ix <==> LinesOf(args)[k].Hash?) && (k in jx <==> LinesOf(args)[k].RefName?)
  {
    WantsOfExactly(LinesOf(args), |args|);
    ix := HashesPicked(LinesOf(args), |args|);
    jx := RefsPicked(LinesOf(args), |args|);
    r := CollectWants(args);
  }

  predicate Canonical(oid: Oid) {
    |oid| == OID_LENGTH && forall c :: c in oid ==> IsHex(c) && !('A' <= c <= 'F')
  }

  /** The argument a client sends for one wanted hash. */
  function WantLine(oid: Oid): string {
    "want " + oid + "\n"
  }

  lemma HexIsTrimmed(oid: Oid)
    requires Canonical(oid)
    ensures Trimmed(oid)
  {
    assert forall k :: 0 <= k < |oid| ==> oid[k] in oid;
  }

  lemma TrimsNewline(oid: Oid)
    requires Canonical(oid)
    ensures TrimSpace(oid + "\n") == oid
  {
    HexIsTrimmed(oid);
    TrimsLast(oid, '\n');
  }

  lemma ReadsWantLine(oid: Oid)
    requires Canonical(oid)
    ensures ReadLine(WantLine(oid)) == Hash(oid)
  {
    var s := WantLine(oid);
    var tail := oid + "\n";
    assert s[..5] == "want ";
    assert ' ' !in tail by {
      assert forall c :: c in oid ==> IsHex(c);
    }
    IndexIsFirst("want", ' ', tail);
    assert s == "want" + [' '] + tail;
    assert Index(s, ' ') == 4 && s[..4] == "want" && s[4 + 1..] == tail;
    SplitJoin([tail], ' ');
    assert Split(s[4 + 1..], ' ') == [tail];
    assert Split(s, ' ') == ["want", tail];
    TrimsNewline(oid);
    assert forall i :: 0 <= i < |oid| ==> oid[i] in oid;
    assert NewOid(oid).value == oid;
  }

  function WantLines(oids: seq<Oid>): seq<Option<string>> {
    if oids == [] then [] else WantLines(oids[..|oids| - 1]) + [Some(WantLine(oids[|oids| - 1]))]
  }

  lemma {:induction false} WantLineAt(oids: seq<Oid>, k: nat)
    requires k < |oids|
    ensures |WantLines(oids)| == |oids| && WantLines(oids)[k] == Some(WantLine(oids[k]))
  {
    var n := |oids| - 1;
    if k < n {
      WantLineAt(oids[..n], k);
    } else if n > 0 {
      WantLineAt(oids[..n], 0);
    }
  }

  lemma WantLineReads(oids: seq<Oid>, k: nat)
    requires k < |oids| && Canonical(oids[k])
    ensures |LinesOf(WantLines(oids))| == |oids| && LinesOf(WantLines(oids))[k] == Hash(oids[k])
  {
    WantLineAt(oids, k);
    ReadsWantLine(oids[k]);
  }

  lemma {:induction false} ReadsAll(lines: seq<Line>, oids: seq<Oid>, n: nat)
    requires n <= |lines| == |oids| && forall k :: 0 <= k < |lines| ==> lines[k] == Hash(oids[k])
    ensures WantsOf(lines, n) == Wants(oids[..n], [])
  {
    if n > 0 {
      ReadsAll(lines, oids, n - 1);
      assert oids[..n] == oids[..n - 1] + [oids[n - 1]];
    }
  }

  /** What a client asks for is what the proxy reads, in the same order. */
  lemma WantsRoundTrip(oids: seq<Oid>)
    requires forall k :: 0 <= k < |oids| ==> Canonical(oids[k])
    ensures var lines := LinesOf(WantLines(oids)); WantsOf(lines, |lines|) == Wants(oids, [])
  {
    var lines := LinesOf(WantLines(oids));
    forall k | 0 <= k < |oids| ensures |lines| == |oids| && lines[k] == Hash(oids[k]) {
      WantLineReads(oids, k);
    }
    if oids == [] {
      assert lines == [];
    }
    ReadsAll(lines, oids, |oids|);
    assert oids[..|oids|] == oids;
  }

  datatype RefState = Resolves | NotFound | BadName

  datatype Check = Checked(all: bool) | Failed

  /** What one `git fetch` brings, the references it leaves, and whether it exits with 0. */
  datatype GitRun = GitRun(got: set<Oid>, refs: map<string, RefState>, ok: bool)

  /** The object set and refs of the local repository, and the time of its last successful fetch. */
  class LocalRepository {
    var objects: set<Oid>
    var refs: map<string, RefState>
    var lastUpdateUnix: int
    /** The argument lists of the git commands run so far. */
    var commands: seq<seq<string>>

    constructor ()
      ensures objects == {} && refs == map[] && lastUpdateUnix == 0 && commands == []
    {
      objects, refs, lastUpdateUnix, commands := {}, map[], 0, [];
    }

    function Lookup(name: string): RefState
      reads this
    {
      if name in refs then refs[name] else NotFound
    }

    /** The first ref that does not resolve, if any. */
    predicate FirstBad(names: seq<string>, k: nat)
      reads this
    {
      k < |names| && Lookup(names[k]) != Resolves && forall j :: 0 <= j < k ==> Lookup(names[j]) == Resolves
    }

    /** `hasAllWants`: a missing hash answers no before any ref is looked at. */
    method HasAllWants(hashes: seq<Oid>, names: seq<string>, opens: bool) returns (r: Check)
      ensures r == Checked(true) <==>
              opens && AllIn(hashes, objects) && forall k :: 0 <= k < |names| ==> Lookup(names[k]) == Resolves
      ensures r == Failed <==>
              !opens || (AllIn(hashes, objects) && exists k: nat :: FirstBad(names, k) && Lookup(names[k]) == BadName)
    {
      if !opens {
        return Failed;
      }
      for k := 0 to |hashes|
        invariant forall j :: 0 <= j < k ==> hashes[j] in objects
      {
        if hashes[k] !in objects {
          return Checked(false);
        }
      }
      for k := 0 to |names|
        invariant forall j :: 0 <= j < k ==> Lookup(names[j]) == Resolves
      {
        var state := Lookup(names[k]);
        if state != Resolves {
          assert FirstBad(names, k);
          return if state == NotFound then Checked(false) else Failed;
        }
      }
      r := Checked(true);
    }

    /** Builds and runs one `git fetch`; of the additional wants only the first is asked for. */
    method FetchUpstreamInternal(all: bool, wants: seq<Oid>, run: GitRun) returns (ok: bool)
      modifies this
      ensures ok == run.ok
      ensures commands == old(commands) +
              [if all then ["fetch", "--all"]
               else ["fetch", "--force", "--prune", "--no-tags", "origin", "+refs/heads/*:refs/remotes/origin/*"]
                    + wants[..if wants == [] then 0 else 1]]
      ensures objects == old(objects) + run.got
      ensures refs == run.refs && lastUpdateUnix == old(lastUpdateUnix)
    {
      var args := ["fetch"];
      if all {
        args := args + ["--all"];
        assert args == ["fetch", "--all"];
      } else {
        args := args + ["--force"];
        args := args + ["--prune"];
        args := args + ["--no-tags"];
        args := args + ["origin"];
        args := args + ["+refs/heads/*:refs/remotes/origin/*"];
        if |wants| >= 1 {
          args := args + [wants[0]];
        }
        assert args == ["fetch", "--force", "--prune", "--no-tags", "origin", "+refs/heads/*:refs/remotes/origin/*"]
                       + wants[..if wants == [] then 0 else 1];
      }
      commands := commands + [args];
      objects := objects + run.got;
      refs := run.refs;
      ok := run.ok;
    }

    /** `fetchUpstream`: two git commands, of which only the second one's error counts. */
    method FetchUpstream(wants: seq<Oid>, start: int, all: GitRun, origin: GitRun) returns (ok: bool)
      modifies this
      ensures ok == origin.ok
      ensures commands == old(commands) +
              [["fetch", "--all"],
               ["fetch", "--force", "--prune", "--no-tags", "origin", "+refs/heads/*:refs/remotes/origin/*"]
               + wants[..if wants == [] then 0 else 1]]
      ensures objects == old(objects) + all.got + origin.got
      ensures lastUpdateUnix == if origin.ok then Unix(start) else old(lastUpdateUnix)
      ensures refs == origin.refs
    {
      ok := FetchUpstreamInternal(true, wants, all);
      ok := FetchUpstreamInternal(false, wants, origin);
      if ok {
        lastUpdateUnix := Unix(start);
      }
    }
  }
}
