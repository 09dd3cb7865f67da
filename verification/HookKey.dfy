/** How the `packobjects` hook names the cache entry of one invocation. */
module HookKey {
  import opened Strings

  /** The command line and standard input of one hook run. */
  datatype Invocation = Invocation(args: seq<string>, stdin: string)

  /** What is fed to SHA-256: the trimmed space-joined arguments, a newline, the standard input. */
  function Preimage(i: Invocation): string {
    TrimSpace(Join(i.args, ' ')) + ['\n'] + i.stdin
  }

  /** Arguments that are non-empty, without blanks and newlines, and without other whitespace at their ends. */
  predicate Clean(i: Invocation) {
    i.args != [] && forall a :: a in i.args ==> a != "" && ' ' !in a && '\n' !in a && Trimmed(a)
  }

  predicate NewlineFree(i: Invocation) {
    forall a :: a in i.args ==> '\n' !in a
  }

  /** Reads an invocation back from its preimage. */
  function Decode(p: string): Invocation {
    var n := Index(p, '\n');
    Invocation(Split(p[..n], ' '), if n < |p| then p[n + 1..] else "")
  }

  lemma CleanLine(i: Invocation)
    requires Clean(i)
    ensures TrimSpace(Join(i.args, ' ')) == Join(i.args, ' ')
    ensures '\n' !in Join(i.args, ' ')
  {
    JoinTrimmed(i.args);
    TrimSpaceFixpoint(Join(i.args, ' '));
    JoinChars(i.args, ' ', '\n');
  }

  /** On clean invocations the preimage loses nothing. */
  lemma DecodePreimage(i: Invocation)
    requires Clean(i)
    ensures Decode(Preimage(i)) == i
  {
    CleanLine(i);
    var line := Join(i.args, ' ');
    IndexIsFirst(line, '\n', i.stdin);
    assert Preimage(i)[..|line|] == line;
    assert Preimage(i)[|line| + 1..] == i.stdin;
    SplitJoin(i.args, ' ');
  }

  /** Without newlines in the arguments, two preimages agree exactly when the trimmed lines and the inputs agree. */
  lemma PreimageEqual(i: Invocation, j: Invocation)
    requires NewlineFree(i) && NewlineFree(j)
    ensures Preimage(i) == Preimage(j) <==>
            TrimSpace(Join(i.args, ' ')) == TrimSpace(Join(j.args, ' ')) && i.stdin == j.stdin
  {
    JoinChars(i.args, ' ', '\n');
    JoinChars(j.args, ' ', '\n');
    TrimSpaceFixpoint(Join(i.args, ' '));
    TrimSpaceFixpoint(Join(j.args, ' '));
    CutUnique(TrimSpace(Join(i.args, ' ')), TrimSpace(Join(j.args, ' ')), '\n', i.stdin, j.stdin);
  }

  /** Word boundaries are not part of the key: any two adjacent arguments and their space-joined form share a preimage. */
  lemma PreimageCollision(a: string, b: string, stdin: string)
    ensures var i, j := Invocation([a + " " + b], stdin), Invocation([a, b], stdin);
            i != j && Preimage(i) == Preimage(j)
  {
    var i, j := Invocation([a + " " + b], stdin), Invocation([a, b], stdin);
    assert |i.args| != |j.args|;
    assert j.args[1..] == [b];
    assert Join(j.args, ' ') == a + [' '] + b == Join(i.args, ' ');
  }

  const KEY_LENGTH := 64

  /** A hex-encoded SHA-256 sum. */
  type Digest = s: string | |s| == KEY_LENGTH witness seq(KEY_LENGTH, _ => '0')

  /** Directory of the entry: `dir/key[:2]/key[2:]`. */
  function EntryPath(dir: string, key: Digest): string {
    dir + "/" + key[..2] + "/" + key[2..]
  }

  function FilePath(dir: string, key: Digest, file: string): string {
    EntryPath(dir, key) + "/" + file
  }

  /** Entries of different keys share no directory and no file, and neither directory lies inside the other. */
  lemma EntriesDisjoint(dir: string, k: Digest, l: Digest, f: string, g: string)
    ensures EntryPath(dir, k) == EntryPath(dir, l) <==> k == l
    ensures FilePath(dir, k, f) == FilePath(dir, l, g) <==> k == l && f == g
    ensures !(EntryPath(dir, k) + "/" <= EntryPath(dir, l))
  {
    var p, q := EntryPath(dir, k), EntryPath(dir, l);
    if p == q {
      var n := |dir| + 1;
      assert p[n..n + 2] == k[..2] && q[n..n + 2] == l[..2];
      assert p[n + 3..] == k[2..] && q[n + 3..] == l[2..];
      assert k == k[..2] + k[2..] && l == l[..2] + l[2..];
    }
    if FilePath(dir, k, f) == FilePath(dir, l, g) {
      assert p == FilePath(dir, k, f)[..|p|] && q == FilePath(dir, l, g)[..|p|];
      assert f == FilePath(dir, k, f)[|p| + 1..] && g == FilePath(dir, l, g)[|p| + 1..];
    }
  }
}
