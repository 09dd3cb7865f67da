/** Repository manifests: one URL per line, one file per backup, collected after a day. */
module Manifests {
  import opened Clock
  import opened Options
  import opened Strings
  import opened Decimal
  import opened Bundles

  const CLEAN_UP := 24 * 60 * 60 * SECOND

  /** Longest line that `bufio.Scanner` delivers. */
  const MAX_LINE := 64 * 1024 - 1

  function Print(urls: seq<string>): string {
    if urls == [] then "" else Print(urls[..|urls| - 1]) + (urls[|urls| - 1] + "\n")
  }

  /** The lines delivered by the scanner; it gives up at a line that is too long. */
  function Lines(text: string): seq<string>
    decreases |text|
  {
    if text == "" then []
    else
      var i := Index(text, '\n');
      if i > MAX_LINE then [] else [text[..i]] + if i < |text| then Lines(text[i + 1..]) else []
  }

  function Scan(text: string): set<string> {
    set l | l in Lines(text) :: TrimSpace(l)
  }

  predicate OneLine(url: string) {
    '\n' !in url && |url| <= 65535 && Trimmed(url)
  }

  lemma {:induction false} PrintCons(url: string, urls: seq<string>)
    ensures Print([url] + urls) == url + "\n" + Print(urls)
  {
    if urls == [] {
      assert [url] + urls == [url];
      assert [url][..0] == [];
    } else {
      var n := |urls| - 1;
      assert ([url] + urls)[..n + 1] == [url] + urls[..n];
      PrintCons(url, urls[..n]);
      assert Print([url] + urls) == (url + "\n" + Print(urls[..n])) + (urls[n] + "\n");
    }
  }

  lemma {:induction false} LinesOfPrint(urls: seq<string>)
    requires forall u :: u in urls ==> '\n' !in u && |u| <= MAX_LINE
    ensures Lines(Print(urls)) == urls
  {
    if urls != [] {
      var url, rest := urls[0], urls[1..];
      assert urls == [url] + rest;
      PrintCons(url, rest);
      LinesOfPrint(rest);
      IndexIsFirst(url, '\n', Print(rest));
      var text := Print(urls);
      assert text == url + ['\n'] + Print(rest);
      assert text[..|url|] == url && text[|url| + 1..] == Print(rest);
    }
  }

  lemma {:induction false} LinesAreShort(text: string, l: string)
    requires l in Lines(text)
    ensures '\n' !in l && |l| <= MAX_LINE
    decreases |text|
  {
    var i := Index(text, '\n');
    if l != text[..i] {
      LinesAreShort(text[i + 1..], l);
    }
  }

  /** Everything read from a manifest is a trimmed line of bounded length. */
  lemma ScannedAreLines(text: string, u: string)
    requires u in Scan(text)
    ensures OneLine(u)
  {
    var l :| l in Lines(text) && TrimSpace(l) == u;
    LinesAreShort(text, l);
    TrimSpaceFixpoint(l);
  }

  /** Printing and scanning undo each other exactly on lists of trimmed lines of bounded length. */
  lemma RoundTripExactly(urls: seq<string>)
    ensures Scan(Print(urls)) == Range(urls) <==> forall u :: u in urls ==> OneLine(u)
  {
    if forall u :: u in urls ==> OneLine(u) {
      LinesOfPrint(urls);
      forall u | u in urls ensures TrimSpace(u) == u {
        TrimSpaceFixpoint(u);
      }
      assert Scan(Print(urls)) == Range(urls);
    }
    if Scan(Print(urls)) == Range(urls) {
      forall u | u in urls ensures OneLine(u) {
        assert u in Range(urls);
        ScannedAreLines(Print(urls), u);
      }
    }
  }

  /** Seconds from the year 1, from which Go counts, to 1970. */
  const UNIX_TO_INTERNAL := 62135596800

  /** The greatest number of seconds since 1970 that a Go time can have. */
  const LAST_SECOND := MAX_INT64 - UNIX_TO_INTERNAL

  /** The second meant by `time.Unix(sec, 0)`: the count from the year 1 wraps around in 64 bits. */
  function SecondOf(sec: int): int {
    if sec > LAST_SECOND then sec - 0x1_0000_0000_0000_0000 else sec
  }

  /** Not yet due for collection; names that are not numbers never are. */
  predicate Fresh(name: string, now: int) {
    !Numeric(name) || now - CLEAN_UP <= SecondOf(StampOf(name)) * SECOND
  }

  function Surviving(manifests: map<string, string>, now: int): map<string, string> {
    map name | name in manifests && Fresh(name, now) :: manifests[name]
  }

  function AllUrls(manifests: map<string, string>): set<string> {
    set name, u | name in manifests && u in Scan(manifests[name]) :: u
  }

  function ManifestName(now: nat): string {
    Format(now / SECOND)
  }

  /** The manifest just written survives its own collection, although its name drops the fraction of a second. */
  lemma OwnManifestSurvives(now: nat)
    requires now / SECOND <= LAST_SECOND
    ensures Fresh(ManifestName(now), now) && ParseInt(ManifestName(now)) == Some(now / 1_000_000_000)
  {
    ParseFormat(now / SECOND);
  }

  /** Reading back after a completed backup: the URLs just saved, and those of the other manifests that survive. */
  lemma ReadBack(before: map<string, string>, now: nat, urls: seq<string>)
    requires now / SECOND <= LAST_SECOND
    requires forall u :: u in urls ==> OneLine(u)
    ensures AllUrls(Surviving(before[ManifestName(now) := Print(urls)], now)) ==
            Range(urls) + AllUrls(Surviving(before - {ManifestName(now)}, now))
  {
    var name := ManifestName(now);
    var after := Surviving(before[name := Print(urls)], now);
    var others := Surviving(before - {name}, now);
    OwnManifestSurvives(now);
    RoundTripExactly(urls);
    assert forall n :: n in after <==> n == name || n in others;
    assert forall n :: n in others ==> n != name && after[n] == others[n];
    forall u | u in AllUrls(after) ensures u in Range(urls) + AllUrls(others) {
      var n :| n in after && u in Scan(after[n]);
      assert n != name ==> n in others && u in Scan(others[n]);
    }
    forall u | u in Range(urls) + AllUrls(others) ensures u in AllUrls(after) {
      if u in Range(urls) {
        assert u in Scan(after[name]);
      } else {
        var n :| n in others && u in Scan(others[n]);
        assert u in Scan(after[n]);
      }
    }
  }

  /** What the manifests other than `name` have to say after the collection. */
  lemma SurvivingHold(before: map<string, string>, name: string, now: int, u: string)
    ensures u in AllUrls(Surviving(before - {name}, now)) <==>
            (exists n ::
              && n in before && n != name && u in Scan(before[n])
              && (ParseInt(n).None? || SecondOf(ParseInt(n).value) * 1_000_000_000 >= now - 86_400_000_000_000))
  {
    var others := Surviving(before - {name}, now);
    if u in AllUrls(others) {
      var n :| n in others && u in Scan(others[n]);
      assert n in before && n != name && u in Scan(before[n]);
    }
    if n :| n in before && n != name && u in Scan(before[n]) && Fresh(n, now) {
      assert n in others && u in Scan(others[n]);
    }
  }

  /** The same, read off the manifests: a URL is read back exactly if it was just saved or stands in another manifest
      whose name is no number or a time at most 24 hours ago. */
  lemma ReadBackExactly(before: map<string, string>, now: nat, urls: seq<string>, u: string)
    requires now / SECOND <= LAST_SECOND
    requires forall v :: v in urls ==> OneLine(v)
    ensures u in AllUrls(Surviving(before[ManifestName(now) := Print(urls)], now)) <==>
            u in urls || (exists n ::
              && n in before && n != ManifestName(now) && u in Scan(before[n])
              && (ParseInt(n).None? || SecondOf(ParseInt(n).value) * 1_000_000_000 >= now - 86_400_000_000_000))
  {
    ReadBack(before, now, urls);
    SurvivingHold(before, ManifestName(now), now, u);
  }
}
