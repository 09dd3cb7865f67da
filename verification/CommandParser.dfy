/** Splitting an upload-pack request into commands, over a scanner that reuses its chunk and its buffer. */
module CommandParser {
  import opened Options

  /** The value of a protocol chunk; `Flush` ends a request. */
  datatype Item = Flush | Item(command: string, argument: Option<string>)

  /** A Go byte slice: absent, or a prefix of a backing array. */
  datatype Slice = Nil | Slice(data: array<char>, length: nat)

  class Chunk {
    var command: string
    var argument: Slice
    var endRequest: bool

    constructor (command: string, argument: Slice, endRequest: bool)
      ensures this.command == command && this.argument == argument && this.endRequest == endRequest
    {
      this.command, this.argument, this.endRequest := command, argument, endRequest;
    }
  }

  function Data(s: Slice): set<object> {
    if s.Slice? then {s.data} else {}
  }

  predicate InBounds(s: Slice) {
    s.Slice? ==> s.length <= s.data.Length
  }

  function Bytes(s: Slice): Option<string>
    requires InBounds(s)
    reads Data(s)
  {
    if s.Slice? then Some(s.data[..s.length]) else None
  }

  /** The chunk stands for this value. */
  predicate Means(c: Chunk, item: Item)
    reads c, Data(c.argument)
  {
    && InBounds(c.argument)
    && item == if c.endRequest then Flush else Item(c.command, Bytes(c.argument))
  }

  /** `gitprotocolio`'s request scanner: items arrive one by one, then the end of the body or an error, for ever. */
  class Scanner {
    const input: seq<Item>
    const fails: bool
    var pos: nat
    var ended: bool
    const buffer: array<char>
    const chunk: Chunk

    ghost predicate Valid()
      reads this
    {
      && pos <= |input|
      && (ended ==> pos == |input|)
      && forall k :: 0 <= k < |input| && input[k].Item? && input[k].argument.Some? ==>
           |input[k].argument.value| <= buffer.Length
    }

    constructor (input: seq<Item>, fails: bool, size: nat)
      requires forall k :: 0 <= k < |input| && input[k].Item? && input[k].argument.Some? ==>
                             |input[k].argument.value| <= size
      ensures Valid() && this.input == input && this.fails == fails && pos == 0 && !ended
      ensures fresh(buffer) && fresh(chunk)
    {
      this.input, this.fails, pos, ended := input, fails, 0, false;
      buffer := new char[size];
      chunk := new Chunk("", Nil, false);
    }

    predicate Err()
      reads this
    {
      ended && fails
    }

    /** Overwrites the chunk and the buffer with the next item. */
    method Scan() returns (ok: bool)
      requires Valid()
      modifies this, buffer, chunk
      ensures Valid()
      ensures ok == (old(pos) < |input|)
      ensures if ok then pos == old(pos) + 1 && ended == old(ended) && Means(chunk, input[old(pos)])
              else pos == old(pos) && ended
      ensures ok && chunk.argument.Slice? ==> chunk.argument.data == buffer
    {
      if pos == |input| {
        ended := true;
        return false;
      }
      match input[pos] {
        case Flush =>
          chunk.command, chunk.argument, chunk.endRequest := "", Nil, true;
        case Item(command, argument) =>
          chunk.command, chunk.endRequest := command, false;
          match argument {
            case None => chunk.argument := Nil;
            case Some(bytes) =>
              forall k | 0 <= k < |bytes| {
                buffer[k] := bytes[k];
              }
              chunk.argument := Slice(buffer, |bytes|);
              assert buffer[..|bytes|] == bytes;
          }
      }
      pos := pos + 1;
      ok := true;
    }
  }

  /** `copyRequestChunk`: a new chunk with its own bytes. */
  method CopyRequestChunk(c: Chunk) returns (r: Chunk)
    requires InBounds(c.argument)
    ensures fresh(r) && fresh(Data(r.argument)) && InBounds(r.argument)
    ensures r.command == c.command && r.endRequest == c.endRequest
    ensures Bytes(r.argument) == Bytes(c.argument)
  {
    r := new Chunk(c.command, c.argument, c.endRequest);
    if c.argument.Slice? {
      var n := c.argument.length;
      var b := new char[n];
      forall k | 0 <= k < n {
        b[k] := c.argument.data[k];
      }
      assert b[..n] == c.argument.data[..n];
      r.argument := Slice(b, n);
    }
  }

  // ----- what the parser should return -----

  datatype Outcome = Parsed(commands: seq<seq<Item>>) | Unrecognized | Malformed

  predicate Known(command: string) {
    command == "ls-refs" || command == "fetch"
  }

  function FlushIndex(input: seq<Item>): (n: nat)
    ensures n <= |input| && Flush !in input[..n] && (n < |input| ==> input[n] == Flush)
  {
    if input == [] || input[0] == Flush then 0 else 1 + FlushIndex(input[1..])
  }

  function Prepend(done: seq<seq<Item>>, rest: Outcome): Outcome {
    if rest.Parsed? then Parsed(done + rest.commands) else rest
  }

  function CommandOf(item: Item): string {
    if item.Item? then item.command else ""
  }

  function ParseSpec(input: seq<Item>, fails: bool): Outcome
    decreases |input|
  {
    var n := FlushIndex(input);
    var ended := n == |input|;
    if ended && fails then Malformed
    else if n == 0 then Parsed([])
    else if !Known(CommandOf(input[0])) then Unrecognized
    else Prepend([input[..n]], ParseSpec(if ended then [] else input[n + 1..], fails))
  }

  // ----- the parser -----

  /** Chunks that stand for these values and share nothing with the scanner. */
  ghost predicate Holds(cs: seq<Chunk>, items: seq<Item>, sc: Scanner)
    reads set c | c in cs, set c, o | c in cs && o in Data(c.argument) :: o
  {
    && |cs| == |items|
    && forall k :: 0 <= k < |cs| ==>
         Means(cs[k], items[k]) && cs[k] != sc.chunk && sc.buffer !in Data(cs[k].argument)
  }

  datatype Result = Commands(commands: seq<seq<Chunk>>) | UnrecognizedCommand | CannotParse

  /** Scans once and copies; the copy is the caller's alone. */
  method NextChunk(sc: Scanner) returns (ok: bool, c: Chunk)
    requires sc.Valid()
    modifies sc, sc.buffer, sc.chunk
    ensures sc.Valid() && ok == (old(sc.pos) < |sc.input|)
    ensures if ok then sc.pos == old(sc.pos) + 1 && sc.ended == old(sc.ended) && Means(c, sc.input[old(sc.pos)])
            else sc.pos == old(sc.pos) && sc.ended
    ensures fresh(c) && fresh(Data(c.argument))
  {
    ok := sc.Scan();
    if ok {
      c := CopyRequestChunk(sc.chunk);
    } else {
      c := new Chunk("", Nil, false);
    }
  }

  lemma {:induction false} FlushIndexIs(input: seq<Item>, n: nat)
    requires n <= |input| && Flush !in input[..n] && (n < |input| ==> input[n] == Flush)
    ensures FlushIndex(input) == n
  {
    if n > 0 {
      assert input[..n][0] == input[0];
      assert input[1..][..n - 1] == input[..n][1..];
      FlushIndexIs(input[1..], n - 1);
    }
  }

  /** Reads one group: the chunks up to a flush or the end of the input. */
  method ReadGroup(sc: Scanner) returns (chunks: seq<Chunk>)
    requires sc.Valid()
    modifies sc, sc.buffer, sc.chunk
    ensures sc.Valid()
    ensures var rest := sc.input[old(sc.pos)..]; var n := FlushIndex(rest);
            && Holds(chunks, rest[..n], sc)
            && (if n == |rest| then sc.ended && sc.pos == |sc.input| else sc.ended == old(sc.ended) && sc.pos == old(sc.pos) + n + 1)
    ensures forall c :: c in chunks ==> fresh(c) && fresh(Data(c.argument))
  {
    chunks := [];
    ghost var start := sc.pos;
    ghost var rest := sc.input[start..];
    var more := true;
    while more
      invariant sc.Valid() && start + |chunks| <= |sc.input|
      invariant more ==> sc.pos == start + |chunks| && sc.ended == old(sc.ended)
      invariant !more ==> if |chunks| == |rest| then sc.ended && sc.pos == |sc.input|
                          else rest[|chunks|] == Flush && sc.ended == old(sc.ended) && sc.pos == start + |chunks| + 1
      invariant forall k :: 0 <= k < |chunks| ==> Means(chunks[k], rest[k]) && rest[k] != Flush
      invariant forall c :: c in chunks ==> fresh(c) && fresh(Data(c.argument))
      decreases more, |rest| - |chunks|
    {
      var ok, c := NextChunk(sc);
      assert ok ==> sc.input[start + |chunks|] == rest[|chunks|];
      if !ok || c.endRequest {
        more := false;
      } else {
        chunks := chunks + [c];
      }
    }
    assert forall k :: 0 <= k < |chunks| ==> rest[..|chunks|][k] == rest[k];
    FlushIndexIs(rest, |chunks|);
  }

  /** Commands that stand for these values, group by group. */
  ghost predicate HoldsAll(commands: seq<seq<Chunk>>, groups: seq<seq<Item>>, sc: Scanner)
    reads set g, c | g in commands && c in g :: c
    reads set g, c, o | g in commands && c in g && o in Data(c.argument) :: o
  {
    |commands| == |groups| && forall k :: 0 <= k < |commands| ==> Holds(commands[k], groups[k], sc)
  }

  /** The rest of the input after one group, as the specification sees it. */
  lemma ParseNext(input: seq<Item>, fails: bool, pos: nat, next: nat)
    requires pos <= next <= |input|
    requires var rest := input[pos..]; var n := FlushIndex(rest);
             n > 0 && Known(CommandOf(rest[0])) && !(n == |rest| && fails) && next == (if n == |rest| then |input| else pos + n + 1)
    ensures var rest := input[pos..];
            ParseSpec(rest, fails) == Prepend([rest[..FlushIndex(rest)]], ParseSpec(input[next..], fails))
  {
    var rest := input[pos..];
    var n := FlushIndex(rest);
    assert (if n == |rest| then [] else rest[n + 1..]) == input[next..];
  }

  lemma PrependAppend(done: seq<seq<Item>>, group: seq<Item>, rest: Outcome)
    ensures Prepend(done, Prepend([group], rest)) == Prepend(done + [group], rest)
  {
    if rest.Parsed? {
      assert done + ([group] + rest.commands) == done + [group] + rest.commands;
    }
  }

  datatype Status = Stop | Refuse | Got

  /** One round of the outer loop: a group, and whether to stop, to refuse, or to go on. */
  method ReadCommand(sc: Scanner) returns (status: Status, chunks: seq<Chunk>)
    requires sc.Valid() && !sc.Err()
    modifies sc, sc.buffer, sc.chunk
    ensures sc.Valid()
    ensures forall c :: c in chunks ==> fresh(c) && fresh(Data(c.argument))
    ensures var rest := sc.input[old(sc.pos)..]; var group := rest[..FlushIndex(rest)];
            && Holds(chunks, group, sc)
            && match status
               case Stop => ParseSpec(rest, sc.fails) == if sc.Err() then Malformed else Parsed([])
               case Refuse => ParseSpec(rest, sc.fails) == Unrecognized
               case Got => !sc.Err() && old(sc.pos) < sc.pos &&
                           ParseSpec(rest, sc.fails) == Prepend([group], ParseSpec(sc.input[sc.pos..], sc.fails))
  {
    ghost var pos := sc.pos;
    ghost var rest := sc.input[pos..];
    chunks := ReadGroup(sc);
    if |chunks| == 0 || sc.Err() {
      return Stop, chunks;
    }
    assert Means(chunks[0], rest[0]) && rest[0] == rest[..FlushIndex(rest)][0] != Flush;
    if !Known(chunks[0].command) {
      return Refuse, chunks;
    }
    ParseNext(sc.input, sc.fails, pos, sc.pos);
    status := Got;
  }

  lemma HoldsMore(commands: seq<seq<Chunk>>, groups: seq<seq<Item>>, chunks: seq<Chunk>, group: seq<Item>, sc: Scanner)
    requires HoldsAll(commands, groups, sc) && Holds(chunks, group, sc)
    ensures HoldsAll(commands + [chunks], groups + [group], sc)
  {
  }

  /** One round, and its group added to the commands found so far. */
  method AddCommand(sc: Scanner, commands: seq<seq<Chunk>>, ghost groups: seq<seq<Item>>)
    returns (status: Status, more: seq<seq<Chunk>>, ghost moreGroups: seq<seq<Item>>)
    requires sc.Valid() && !sc.Err() && HoldsAll(commands, groups, sc)
    modifies sc, sc.buffer, sc.chunk
    ensures sc.Valid() && HoldsAll(more, moreGroups, sc)
    ensures forall g, c :: g in more && g !in commands && c in g ==> fresh(c) && fresh(Data(c.argument))
    ensures var whole := Prepend(groups, ParseSpec(sc.input[old(sc.pos)..], sc.fails));
            match status
            case Stop => whole == if sc.Err() then Malformed else Parsed(moreGroups)
            case Refuse => whole == Unrecognized
            case Got => !sc.Err() && old(sc.pos) < sc.pos &&
                        whole == Prepend(moreGroups, ParseSpec(sc.input[sc.pos..], sc.fails))
  {
    ghost var rest := sc.input[sc.pos..];
    var chunks;
    status, chunks := ReadCommand(sc);
    if status.Got? {
      ghost var group := rest[..FlushIndex(rest)];
      PrependAppend(groups, group, ParseSpec(sc.input[sc.pos..], sc.fails));
      HoldsMore(commands, groups, chunks, group, sc);
      more, moreGroups := commands + [chunks], groups + [group];
    } else {
      assert groups + [] == groups;
      more, moreGroups := commands, groups;
    }
  }

  /** `parseAllCommands`. */
  method ParseAllCommands(sc: Scanner) returns (r: Result)
    requires sc.Valid() && sc.pos == 0 && !sc.ended
    modifies sc, sc.buffer, sc.chunk
    ensures sc.Valid()
    ensures match ParseSpec(sc.input, sc.fails)
            case Parsed(groups) => r.Commands? && HoldsAll(r.commands, groups, sc)
            case Unrecognized => r.UnrecognizedCommand?
            case Malformed => r.CannotParse?
    ensures r.Commands? ==> forall g, c :: g in r.commands && c in g ==> fresh(c) && fresh(Data(c.argument))
  {
    var commands: seq<seq<Chunk>> := [];
    ghost var groups: seq<seq<Item>> := [];
    ghost var goal := ParseSpec(sc.input, sc.fails);
    assert sc.input[0..] == sc.input;
    var more := true;
    while more
      invariant sc.Valid() && HoldsAll(commands, groups, sc)
      invariant more ==> goal == Prepend(groups, ParseSpec(sc.input[sc.pos..], sc.fails)) && !sc.Err()
      invariant !more ==> goal == if sc.Err() then Malformed else Parsed(groups)
      invariant forall g, c :: g in commands && c in g ==> fresh(c) && fresh(Data(c.argument))
      decreases more, |sc.input| - sc.pos
    {
      var status;
      status, commands, groups := AddCommand(sc, commands, groups);
      match status {
        case Stop => more := false;
        case Refuse => return UnrecognizedCommand;
        case Got =>
      }
    }
    r := if sc.Err() then CannotParse else Commands(commands);
  }

  /** Whatever the scanner reads later, the commands keep their content. */
  method ScanFurther(sc: Scanner, commands: seq<seq<Chunk>>, ghost groups: seq<seq<Item>>)
    requires sc.Valid() && HoldsAll(commands, groups, sc)
    modifies sc, sc.buffer, sc.chunk
    ensures sc.Valid() && sc.pos == |sc.input| && HoldsAll(commands, groups, sc)
  {
    var more := true;
    while more
      invariant sc.Valid() && HoldsAll(commands, groups, sc)
      invariant !more ==> sc.pos == |sc.input|
      decreases more, |sc.input| - sc.pos
    {
      more := sc.Scan();
    }
  }

  // ----- the specification, read backwards -----

  /** Requests as a client sends them: each group followed by a flush. */
  function Encode(groups: seq<seq<Item>>): seq<Item> {
    if groups == [] then [] else groups[0] + [Flush] + Encode(groups[1..])
  }

  predicate WellFormed(g: seq<Item>) {
    g != [] && Flush !in g && (g[0].command == "ls-refs" || g[0].command == "fetch")
  }

  /** A group that is headed by another command. */
  predicate Foreign(g: seq<Item>) {
    g != [] && Flush !in g && g[0].command != "ls-refs" && g[0].command != "fetch"
  }

  predicate AllWellFormed(groups: seq<seq<Item>>) {
    forall k :: 0 <= k < |groups| ==> WellFormed(groups[k])
  }

  /** The input is these groups, followed by an empty group and anything at all, or by a clean end;
      before a clean end the last flush may be missing. */
  predicate Carries(input: seq<Item>, fails: bool, groups: seq<seq<Item>>) {
    || Encode(groups) + [Flush] <= input
    || (!fails && (input == Encode(groups) || (groups != [] && input + [Flush] == Encode(groups))))
  }

  lemma EncodeCons(g: seq<Item>, more: seq<seq<Item>>)
    ensures Encode([g] + more) == g + [Flush] + Encode(more)
    ensures more != [] ==> |Encode(more)| >= 1
  {
    assert ([g] + more)[1..] == more;
  }

  lemma CarriesCons(g: seq<Item>, rest: seq<Item>, fails: bool, more: seq<seq<Item>>)
    requires Carries(rest, fails, more)
    ensures Carries(g + [Flush] + rest, fails, [g] + more)
  {
    EncodeCons(g, more);
    var input, code := g + [Flush] + rest, Encode(more);
    if code + [Flush] <= rest {
      assert g + [Flush] + code + [Flush] == g + [Flush] + (code + [Flush]);
      assert rest == (code + [Flush]) + rest[|code| + 1..];
      assert input == g + [Flush] + code + [Flush] + rest[|code| + 1..];
    } else if rest + [Flush] == code {
      assert input + [Flush] == g + [Flush] + (rest + [Flush]);
    }
  }

  lemma CarriesLast(g: seq<Item>)
    ensures Carries(g, false, [g])
  {
    EncodeCons(g, []);
    assert [g] + [] == [g];
    assert g + [Flush] + [] == g + [Flush];
  }

  lemma CarriesNone(input: seq<Item>, fails: bool)
    requires FlushIndex(input) == 0 && !(input == [] && fails)
    ensures Carries(input, fails, [])
  {
    assert Encode([]) + [Flush] == [Flush];
    assert input != [] ==> [Flush] <= input;
  }

  function AfterGroup(input: seq<Item>): seq<Item> {
    var n := FlushIndex(input);
    if n == |input| then [] else input[n + 1..]
  }

  /** A successful parse of a non-empty group, taken apart. */
  lemma ParsedGroup(input: seq<Item>, fails: bool, groups: seq<seq<Item>>) returns (more: seq<seq<Item>>)
    requires ParseSpec(input, fails) == Parsed(groups) && FlushIndex(input) > 0
    ensures ParseSpec(AfterGroup(input), fails) == Parsed(more)
    ensures groups == [input[..FlushIndex(input)]] + more
    ensures FlushIndex(input) == |input| ==> !fails && more == []
    ensures WellFormed(input[..FlushIndex(input)])
  {
    more := ParseSpec(AfterGroup(input), fails).commands;
  }

  lemma SplitAt(input: seq<Item>, n: nat)
    requires n < |input| && input[n] == Flush
    ensures input == input[..n] + [Flush] + input[n + 1..]
  {
  }

  lemma InputGroup(input: seq<Item>)
    ensures var g := input[..FlushIndex(input)];
            input == if FlushIndex(input) == |input| then g else g + [Flush] + AfterGroup(input)
  {
    var n := FlushIndex(input);
    if n < |input| {
      SplitAt(input, n);
    } else {
      assert input[..n] == input;
    }
  }

  lemma {:induction false} ParsedCarries(input: seq<Item>, fails: bool, groups: seq<seq<Item>>)
    requires ParseSpec(input, fails) == Parsed(groups)
    ensures AllWellFormed(groups) && Carries(input, fails, groups)
    decreases |input|
  {
    if FlushIndex(input) == 0 {
      CarriesNone(input, fails);
    } else {
      var more := ParsedGroup(input, fails, groups);
      ParsedCarries(AfterGroup(input), fails, more);
      InputGroup(input);
      var g := input[..FlushIndex(input)];
      if FlushIndex(input) == |input| {
        assert groups == [g];
        CarriesLast(g);
      } else {
        CarriesCons(g, AfterGroup(input), fails, more);
      }
    }
  }

  lemma PrependTwice(g: seq<Item>, more: seq<seq<Item>>, rest: Outcome)
    ensures Prepend([g], Prepend(more, rest)) == Prepend([g] + more, rest)
  {
    if rest.Parsed? {
      assert [g] + (more + rest.commands) == [g] + more + rest.commands;
    }
  }

  /** Parsing goes through one well-formed group. */
  lemma ParsesOne(g: seq<Item>, rest: seq<Item>, fails: bool)
    requires WellFormed(g)
    ensures ParseSpec(g + [Flush] + rest, fails) == Prepend([g], ParseSpec(rest, fails))
  {
    var input := g + [Flush] + rest;
    assert input[..|g|] == g && input[|g|] == Flush && input[|g| + 1..] == rest && input[0] == g[0];
    FlushIndexIs(input, |g|);
  }

  lemma EncodeThen(g: seq<Item>, more: seq<seq<Item>>, rest: seq<Item>)
    ensures Encode([g] + more) + rest == g + [Flush] + (Encode(more) + rest)
  {
    EncodeCons(g, more);
  }

  lemma PrependNone(rest: Outcome)
    ensures Prepend([], rest) == rest
  {
    if rest.Parsed? {
      assert [] + rest.commands == rest.commands;
    }
  }

  lemma ParsesBefore(g: seq<Item>, more: seq<seq<Item>>, rest: seq<Item>, fails: bool)
    requires WellFormed(g)
    requires ParseSpec(Encode(more) + rest, fails) == Prepend(more, ParseSpec(rest, fails))
    ensures ParseSpec(Encode([g] + more) + rest, fails) == Prepend([g] + more, ParseSpec(rest, fails))
  {
    EncodeThen(g, more, rest);
    ParsesOne(g, Encode(more) + rest, fails);
    PrependTwice(g, more, ParseSpec(rest, fails));
  }

  /** Parsing goes through well-formed groups to what follows them. */
  lemma {:induction false} ParsesThrough(rest: seq<Item>, fails: bool, groups: seq<seq<Item>>)
    requires AllWellFormed(groups)
    ensures ParseSpec(Encode(groups) + rest, fails) == Prepend(groups, ParseSpec(rest, fails))
    decreases |groups|
  {
    if groups == [] {
      assert Encode(groups) + rest == rest;
      PrependNone(ParseSpec(rest, fails));
    } else {
      var more := groups[1..];
      assert forall k :: 0 <= k < |more| ==> more[k] == groups[k + 1];
      ParsesThrough(rest, fails, more);
      ParsesBefore(groups[0], more, rest, fails);
      assert groups == [groups[0]] + more;
    }
  }

  lemma {:induction false} EncodeAppend(groups: seq<seq<Item>>, g: seq<Item>)
    ensures Encode(groups + [g]) == Encode(groups) + (g + [Flush])
    decreases |groups|
  {
    if groups == [] {
      assert [] + [g] == [g] + [];
      EncodeCons(g, []);
    } else {
      EncodeAppend(groups[1..], g);
      assert groups + [g] == [groups[0]] + (groups[1..] + [g]);
      EncodeThen(groups[0], groups[1..], g + [Flush]);
    }
  }

  lemma OneParses(g: seq<Item>)
    requires WellFormed(g)
    ensures ParseSpec(g, false) == Parsed([g])
  {
    assert g[..|g|] == g;
    FlushIndexIs(g, |g|);
    FlushIndexIs([], 0);
  }

  lemma DropFlush(a: seq<Item>, b: seq<Item>)
    requires a + [Flush] == b + [Flush]
    ensures a == b
  {
    assert a == (a + [Flush])[..|a|];
    assert b == (b + [Flush])[..|b|];
  }

  /** A last group without its flush parses like one with it. */
  lemma LastParses(front: seq<seq<Item>>, g: seq<Item>, input: seq<Item>)
    requires AllWellFormed(front) && WellFormed(g) && input + [Flush] == Encode(front + [g])
    ensures ParseSpec(input, false) == Parsed(front + [g])
  {
    EncodeAppend(front, g);
    assert Encode(front) + (g + [Flush]) == Encode(front) + g + [Flush];
    DropFlush(input, Encode(front) + g);
    ParsesThrough(g, false, front);
    OneParses(g);
  }

  /** Groups, then nothing or an empty group. */
  lemma EndedParses(groups: seq<seq<Item>>, rest: seq<Item>, fails: bool)
    requires AllWellFormed(groups) && (if rest == [] then !fails else rest[0] == Flush)
    ensures ParseSpec(Encode(groups) + rest, fails) == Parsed(groups)
  {
    FlushIndexIs(rest, 0);
    ParsesThrough(rest, fails, groups);
    assert groups + [] == groups;
  }

  lemma CarriedParses(input: seq<Item>, fails: bool, groups: seq<seq<Item>>)
    requires AllWellFormed(groups) && Carries(input, fails, groups)
    ensures ParseSpec(input, fails) == Parsed(groups)
  {
    var code := Encode(groups);
    if code + [Flush] <= input {
      var rest := input[|code|..];
      assert input == (code + [Flush]) + input[|code| + 1..];
      assert input == code + rest && rest[0] == Flush;
      EndedParses(groups, rest, fails);
    } else if input == code {
      assert input == code + [];
      EndedParses(groups, [], fails);
    } else {
      var front, g := groups[..|groups| - 1], groups[|groups| - 1];
      assert groups == front + [g];
      assert WellFormed(g) && forall k :: 0 <= k < |front| ==> front[k] == groups[k];
      LastParses(front, g, input);
    }
  }

  /** The parser succeeds with exactly the leading non-empty groups, and only if all of them are known commands. */
  lemma {:induction false} ParsesExactly(input: seq<Item>, fails: bool, groups: seq<seq<Item>>)
    ensures ParseSpec(input, fails) == Parsed(groups) <==> AllWellFormed(groups) && Carries(input, fails, groups)
    decreases |input|, |groups|
  {
    if ParseSpec(input, fails) == Parsed(groups) {
      ParsedCarries(input, fails, groups);
    }
    if AllWellFormed(groups) && Carries(input, fails, groups) {
      CarriedParses(input, fails, groups);
    }
  }

  // ----- the errors -----

  /** The input is well-formed groups and then a foreign one, flushed or cleanly ended. */
  predicate Meets(input: seq<Item>, fails: bool, groups: seq<seq<Item>>, g: seq<Item>) {
    && AllWellFormed(groups) && Foreign(g)
    && (Encode(groups) + g + [Flush] <= input || (!fails && input == Encode(groups) + g))
  }

  /** The input is well-formed groups and then an unfinished one, possibly empty, in which the scanner fails. */
  predicate BreaksOff(input: seq<Item>, fails: bool, groups: seq<seq<Item>>, g: seq<Item>) {
    fails && AllWellFormed(groups) && Flush !in g && input == Encode(groups) + g
  }

  /** Putting a well-formed group in front of an input puts it in front of what the input holds. */
  lemma MoreBefore(g: seq<Item>, rest: seq<Item>, fails: bool, groups: seq<seq<Item>>, last: seq<Item>)
    requires WellFormed(g)
    ensures Meets(rest, fails, groups, last) ==> Meets(g + [Flush] + rest, fails, [g] + groups, last)
    ensures BreaksOff(rest, fails, groups, last) ==> BreaksOff(g + [Flush] + rest, fails, [g] + groups, last)
  {
    EncodeCons(g, groups);
    var code := Encode(groups);
    assert g + [Flush] + (code + last) == (g + [Flush] + code) + last;
    if code + last + [Flush] <= rest {
      assert rest == (code + last + [Flush]) + rest[|code + last| + 1..];
      assert g + [Flush] + rest == ((g + [Flush] + code) + last + [Flush]) + rest[|code + last| + 1..];
    }
  }

  lemma {:induction false} ErrorHas(input: seq<Item>, fails: bool) returns (groups: seq<seq<Item>>, g: seq<Item>)
    requires !ParseSpec(input, fails).Parsed?
    ensures if ParseSpec(input, fails).Unrecognized? then Meets(input, fails, groups, g) else BreaksOff(input, fails, groups, g)
    decreases |input|
  {
    var n := FlushIndex(input);
    var first := input[..n];
    InputGroup(input);
    if (n == |input| && fails) || (n > 0 && !Known(CommandOf(input[0]))) {
      groups, g := [], first;
      assert Encode([]) == [];
      assert n < |input| ==> first + [Flush] == input[..n + 1];
      assert n > 0 ==> first[0] == input[0] && first[0] != Flush;
      assert n == |input| ==> [] + first == input;
      assert [] + first + [Flush] == first + [Flush];
    } else {
      groups, g := ErrorHas(AfterGroup(input), fails);
      assert first[0] == input[0] && first[0] != Flush;
      MoreBefore(first, AfterGroup(input), fails, groups, g);
      groups := [first] + groups;
    }
  }

  lemma ForeignRefused(g: seq<Item>, tail: seq<Item>, fails: bool)
    requires Foreign(g) && (tail == [] ==> !fails) && (tail != [] ==> tail[0] == Flush)
    ensures ParseSpec(g + tail, fails) == Unrecognized
  {
    var input := g + tail;
    assert input[..|g|] == g && (tail != [] ==> input[|g|] == Flush) && input[0] == g[0] && g[0] in g;
    FlushIndexIs(input, |g|);
  }

  lemma MeetsError(input: seq<Item>, fails: bool, groups: seq<seq<Item>>, g: seq<Item>)
    requires Meets(input, fails, groups, g)
    ensures ParseSpec(input, fails) == Unrecognized
  {
    var code := Encode(groups);
    var tail := input[|code + g|..];
    if code + g + [Flush] <= input {
      assert input == (code + g + [Flush]) + input[|code + g| + 1..];
      assert tail[0] == input[|code + g|] == Flush;
    }
    assert input == code + (g + tail);
    ForeignRefused(g, tail, fails);
    ParsesThrough(g + tail, fails, groups);
  }

  lemma BreaksError(input: seq<Item>, fails: bool, groups: seq<seq<Item>>, g: seq<Item>)
    requires BreaksOff(input, fails, groups, g)
    ensures ParseSpec(input, fails) == Malformed
  {
    assert g[..|g|] == g;
    FlushIndexIs(g, |g|);
    ParsesThrough(g, fails, groups);
  }

  /** A request is refused exactly when its first group that is not headed by `ls-refs` or `fetch` is complete; and it
      cannot be parsed exactly when the scanner fails in or after a group that only such groups precede. */
  lemma ErrorsExactly(input: seq<Item>, fails: bool)
    ensures ParseSpec(input, fails) == Unrecognized <==> exists groups, g :: Meets(input, fails, groups, g)
    ensures ParseSpec(input, fails) == Malformed <==> exists groups, g :: BreaksOff(input, fails, groups, g)
  {
    if !ParseSpec(input, fails).Parsed? {
      var groups, g := ErrorHas(input, fails);
    }
    forall groups, g
      ensures Meets(input, fails, groups, g) ==> ParseSpec(input, fails) == Unrecognized
      ensures BreaksOff(input, fails, groups, g) ==> ParseSpec(input, fails) == Malformed
    {
      if Meets(input, fails, groups, g) {
        MeetsError(input, fails, groups, g);
      }
      if BreaksOff(input, fails, groups, g) {
        BreaksError(input, fails, groups, g);
      }
    }
  }
}
