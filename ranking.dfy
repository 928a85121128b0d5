/** The pure steps of `MainViewModel.fetchAndSortConfigs`: keep the lines that
    are share links, parse them (dropping failures, keeping order), attach the
    measured latencies, and sort stably by latency with unreachable servers last. */
module Ranking {
  import opened Wrappers
  import opened KotlinText
  import opened Profiles
  import opened ConfigParser

  const VlessScheme: string := "vless://"
  const VmessScheme: string := "vmess://"

  /** The sort key given to a server whose latency is not a positive number. */
  const UnreachableKey: int := 99999

  /** The filter is applied to the untrimmed line. */
  predicate IsShareLink(line: string) {
    VlessScheme <= line || VmessScheme <= line
  }

  // ----- Order preservation -----

  /** `xs` is `ys` with some elements deleted. */
  predicate SubsequenceOf<T(==)>(xs: seq<T>, ys: seq<T>)
    decreases |ys|
  {
    if xs == [] then true
    else if ys == [] then false
    else if xs[0] == ys[0] then SubsequenceOf(xs[1..], ys[1..])
    else SubsequenceOf(xs, ys[1..])
  }

  /** Putting an element in front of `ys` keeps `xs` a subsequence of it. */
  lemma {:induction false} SubsequenceSkip<T>(xs: seq<T>, y: T, ys: seq<T>)
    requires SubsequenceOf(xs, ys)
    ensures SubsequenceOf(xs, [y] + ys)
    decreases |ys| + 1, 0
  {
    var zs := [y] + ys;
    assert zs[1..] == ys;
    if xs != [] && xs[0] == y {
      SubsequenceDropHead(xs, ys);
    }
  }

  lemma {:induction false} SubsequenceDropHead<T>(xs: seq<T>, ys: seq<T>)
    requires xs != [] && SubsequenceOf(xs, ys)
    ensures SubsequenceOf(xs[1..], ys)
    decreases |ys|, 1
  {
    assert ys != [];
    assert ys == [ys[0]] + ys[1..];
    if xs[0] == ys[0] {
      SubsequenceSkip(xs[1..], ys[0], ys[1..]);
    } else {
      SubsequenceDropHead(xs, ys[1..]);
      SubsequenceSkip(xs[1..], ys[0], ys[1..]);
    }
  }

  // ----- Filtering the fetched text -----

  /** `filter { it.startsWith("vless://") || it.startsWith("vmess://") }`. */
  function ShareLinks(lines: seq<string>): (r: seq<string>)
    ensures forall i :: 0 <= i < |r| ==> IsShareLink(r[i])
    ensures forall l :: l in lines && IsShareLink(l) ==> l in r
    ensures forall l :: l in r ==> l in lines
    ensures SubsequenceOf(r, lines)
  {
    if lines == [] then []
    else
      var rest := ShareLinks(lines[1..]);
      assert lines == [lines[0]] + lines[1..];
      if IsShareLink(lines[0]) then
        assert ([lines[0]] + rest)[1..] == rest;
        [lines[0]] + rest
      else
        SubsequenceSkip(rest, lines[0], lines[1..]);
        rest
  }

  /** The filter keeps every share link as often as it occurs and nothing else. */
  lemma {:induction false} ShareLinksCount(lines: seq<string>)
    ensures forall l :: multiset(ShareLinks(lines))[l] == if IsShareLink(l) then multiset(lines)[l] else 0
  {
    if lines != [] {
      var rest := ShareLinks(lines[1..]);
      ShareLinksCount(lines[1..]);
      assert lines == [lines[0]] + lines[1..];
      assert multiset(lines) == multiset{lines[0]} + multiset(lines[1..]);
      if IsShareLink(lines[0]) {
        assert ShareLinks(lines) == [lines[0]] + rest;
        assert multiset(ShareLinks(lines)) == multiset{lines[0]} + multiset(rest);
      } else {
        assert ShareLinks(lines) == rest;
      }
    }
  }

  /** The lines of the fetched text that are offered to the parser. */
  function Candidates(content: string): seq<string> {
    ShareLinks(Lines(content))
  }

  /** A share-link parser: `ConfigParser.parse` with its library services fixed. */
  type Parser = string -> Option<VpnProfile>

  function ParserOf(lib: Library): Parser {
    link => Parse(link, lib)
  }

  /** `ConfigParser.parse` keeps the link it was given as the profile's `rawConfig`. */
  ghost predicate KeepsRawLink(parse: Parser) {
    forall link :: parse(link).Some? ==> parse(link).value.rawConfig == link
  }

  lemma ParserKeepsRawLink(lib: Library)
    ensures KeepsRawLink(ParserOf(lib))
  {
    forall link | ParserOf(lib)(link).Some? ensures ParserOf(lib)(link).value.rawConfig == link {
      assert ParserOf(lib)(link) == Parse(link, lib);
    }
  }

  /** `ConfigParser.parse(it.trim())`. */
  function ParseLine(line: string, parse: Parser): Option<VpnProfile> {
    parse(Trim(line))
  }

  function TrimThenParse(parse: Parser): Parser {
    line => ParseLine(line, parse)
  }

  function TrimAll(lines: seq<string>): (r: seq<string>)
    ensures |r| == |lines|
  {
    if lines == [] then [] else [Trim(lines[0])] + TrimAll(lines[1..])
  }

  function RawConfigs(ps: seq<VpnProfile>): (r: seq<string>)
    ensures |r| == |ps|
  {
    if ps == [] then [] else [ps[0].rawConfig] + RawConfigs(ps[1..])
  }

  /** Kotlin's `mapNotNull`: the profiles `f` returns, in order, with the
      lines it rejects dropped. */
  function MapNotNull(lines: seq<string>, f: Parser): (ps: seq<VpnProfile>)
    ensures |ps| <= |lines|
  {
    if lines == [] then []
    else
      var rest := MapNotNull(lines[1..], f);
      match f(lines[0])
      case Some(p) => [p] + rest
      case None => rest
  }

  /** `mapNotNull { ConfigParser.parse(it.trim()) }`. */
  function ParseAll(lines: seq<string>, parse: Parser): (ps: seq<VpnProfile>)
    ensures |ps| <= |lines|
  {
    MapNotNull(lines, TrimThenParse(parse))
  }

  /** One step of `mapNotNull`: the first line contributes its profile, if any,
      ahead of the rest. */
  lemma MapNotNullStep(lines: seq<string>, f: Parser)
    requires lines != []
    ensures f(lines[0]).Some? ==> MapNotNull(lines, f) == [f(lines[0]).value] + MapNotNull(lines[1..], f)
    ensures f(lines[0]).None? ==> MapNotNull(lines, f) == MapNotNull(lines[1..], f)
  {
  }

  /** `mapNotNull` works line by line: mapping two lists one after the other
      is mapping their concatenation. */
  lemma {:induction false} MapNotNullAppend(a: seq<string>, b: seq<string>, f: Parser)
    ensures MapNotNull(a + b, f) == MapNotNull(a, f) + MapNotNull(b, f)
  {
    if a != [] {
      var c := a + b;
      assert c[0] == a[0] && c[1..] == a[1..] + b;
      var rest, tail := MapNotNull(a[1..], f), MapNotNull(b, f);
      assert MapNotNull(c[1..], f) == rest + tail by { MapNotNullAppend(a[1..], b, f); }
      MapNotNullStep(c, f);
      MapNotNullStep(a, f);
      match f(a[0]) {
        case Some(p) =>
          assert [p] + (rest + tail) == ([p] + rest) + tail;
        case None =>
      }
    } else {
      assert a + b == b;
    }
  }

  /** Nothing `f` accepts is dropped: the profile of every accepted line is
      among the results. */
  lemma {:induction false} MapNotNullKeepsAccepted(lines: seq<string>, f: Parser)
    ensures forall i :: 0 <= i < |lines| && f(lines[i]).Some? ==> f(lines[i]).value in MapNotNull(lines, f)
  {
    if lines != [] {
      var rest := lines[1..];
      MapNotNullKeepsAccepted(rest, f);
      MapNotNullStep(lines, f);
      forall i | 0 < i < |lines| && f(lines[i]).Some? ensures f(lines[i]).value in MapNotNull(lines, f) {
        assert lines[i] == rest[i - 1];
      }
    }
  }

  /** Every result of `mapNotNull` is what `f` returned for one of the lines. */
  lemma {:induction false} MapNotNullOrigin(lines: seq<string>, f: Parser)
    ensures forall p :: p in MapNotNull(lines, f) ==> exists l :: l in lines && f(l) == Some(p)
  {
    if lines != [] {
      var rest := MapNotNull(lines[1..], f);
      MapNotNullOrigin(lines[1..], f);
      MapNotNullStep(lines, f);
      forall q | q in MapNotNull(lines, f) ensures exists l :: l in lines && f(l) == Some(q) {
        if q in rest {
          var l :| l in lines[1..] && f(l) == Some(q);
          assert l in lines;
        } else {
          assert f(lines[0]) == Some(q);
          assert lines[0] in lines;
        }
      }
    }
  }

  /** When `f` accepts every line, `mapNotNull` drops nothing and its i-th
      result is `f` of the i-th line. */
  lemma {:induction false} MapNotNullKeepsAll(lines: seq<string>, f: Parser)
    requires forall i :: 0 <= i < |lines| ==> f(lines[i]).Some?
    ensures |MapNotNull(lines, f)| == |lines|
    ensures forall i :: 0 <= i < |lines| ==> MapNotNull(lines, f)[i] == f(lines[i]).value
  {
    if lines != [] {
      var rest := lines[1..];
      forall j | 0 <= j < |rest| ensures f(rest[j]).Some? {
        assert rest[j] == lines[j + 1];
      }
      MapNotNullKeepsAll(rest, f);
      MapNotNullStep(lines, f);
      var tail := MapNotNull(rest, f);
      var r := MapNotNull(lines, f);
      forall i | 0 < i < |lines| ensures r[i] == f(lines[i]).value {
        assert rest[i - 1] == lines[i];
        assert r[i] == tail[i - 1];
      }
    }
  }

  /** Every parsed profile comes from one of the lines. */
  lemma ParseAllOrigin(lines: seq<string>, parse: Parser)
    ensures forall p :: p in ParseAll(lines, parse) ==> exists l :: l in lines && ParseLine(l, parse) == Some(p)
  {
    MapNotNullOrigin(lines, TrimThenParse(parse));
  }

  /** Every line that parses, once trimmed, contributes its profile. */
  lemma ParseAllKeepsParsable(lines: seq<string>, parse: Parser)
    ensures forall i :: 0 <= i < |lines| && ParseLine(lines[i], parse).Some? ==>
              ParseLine(lines[i], parse).value in ParseAll(lines, parse)
  {
    MapNotNullKeepsAccepted(lines, TrimThenParse(parse));
  }

  /** Parsing two lists one after the other is parsing their concatenation. */
  lemma ParseAllAppend(a: seq<string>, b: seq<string>, parse: Parser)
    ensures ParseAll(a + b, parse) == ParseAll(a, parse) + ParseAll(b, parse)
  {
    MapNotNullAppend(a, b, TrimThenParse(parse));
  }

  /** The profiles keep the order of their lines: their raw links are a
      subsequence of the trimmed lines. */
  lemma {:induction false} ParseAllKeepsOrder(lines: seq<string>, parse: Parser)
    requires KeepsRawLink(parse)
    ensures SubsequenceOf(RawConfigs(ParseAll(lines, parse)), TrimAll(lines))
  {
    if lines != [] {
      var rest := ParseAll(lines[1..], parse);
      var trimmedRest := TrimAll(lines[1..]);
      ParseAllKeepsOrder(lines[1..], parse);
      MapNotNullStep(lines, TrimThenParse(parse));
      var trimmed := TrimAll(lines);
      assert trimmed == [Trim(lines[0])] + trimmedRest;
      if ParseLine(lines[0], parse).Some? {
        var ps := ParseAll(lines, parse);
        var p := ParseLine(lines[0], parse).value;
        assert p.rawConfig == Trim(lines[0]);
        assert ps[1..] == rest;
        var raw := RawConfigs(ps);
        assert raw == [p.rawConfig] + RawConfigs(rest);
        assert raw[0] == trimmed[0] && raw[1..] == RawConfigs(rest) && trimmed[1..] == trimmedRest;
      } else {
        SubsequenceSkip(RawConfigs(rest), Trim(lines[0]), trimmedRest);
      }
    }
  }

  /** When every line parses, no line is dropped and the i-th profile comes
      from the i-th line. */
  lemma ParseAllKeepsEveryParsableLine(lines: seq<string>, parse: Parser)
    requires forall i :: 0 <= i < |lines| ==> ParseLine(lines[i], parse).Some?
    ensures |ParseAll(lines, parse)| == |lines|
    ensures forall i :: 0 <= i < |lines| ==> ParseAll(lines, parse)[i] == ParseLine(lines[i], parse).value
  {
    MapNotNullKeepsAll(lines, TrimThenParse(parse));
  }

  /** Only lines that start with a scheme, before trimming, are parsed: a line
      with leading whitespace is dropped. Trimming a kept line removes only
      its trailing whitespace. */
  lemma CandidateLines(content: string)
    ensures forall l :: l in Candidates(content) ==> l in Lines(content) && IsShareLink(l)
    ensures forall l :: l in Lines(content) && l != [] && IsWhitespace(l[0]) ==> l !in Candidates(content)
    ensures forall l :: l in Candidates(content) ==> Trim(l) == TrimEnd(l) && IsShareLink(Trim(l))
  {
    var lines := Lines(content);
    var cs := ShareLinks(lines);
    forall l | l in cs ensures l in lines && IsShareLink(l) && Trim(l) == TrimEnd(l) && IsShareLink(Trim(l)) {
      var i :| 0 <= i < |cs| && cs[i] == l;
      ShareLinkTrim(l);
    }
    forall l | l in lines && l != [] && IsWhitespace(l[0]) ensures l !in cs {
      IndentedLineIsNotShareLink(l);
    }
  }

  /** Trimming a share link removes only trailing whitespace. */
  lemma ShareLinkTrim(l: string)
    requires IsShareLink(l)
    ensures Trim(l) == TrimEnd(l) && IsShareLink(Trim(l))
  {
    if VlessScheme <= l { TrimKeepsPrefix(l, VlessScheme); } else { TrimKeepsPrefix(l, VmessScheme); }
  }

  lemma IndentedLineIsNotShareLink(l: string)
    requires l != [] && IsWhitespace(l[0])
    ensures !IsShareLink(l)
  {
    assert VlessScheme[0] == 'v' && VmessScheme[0] == 'v' && !IsWhitespace('v');
  }

  /** With Android's URI parser a share link always parses, whatever follows
      its scheme. */
  lemma ShareLinkParses(link: string, lib: Library)
    requires AndroidUriParser(lib) && IsShareLink(link)
    ensures Parse(link, lib).Some?
  {
    if VlessScheme <= link {
      assert "vless" + "://" == VlessScheme;
      SchemeSlashSlashParses(link, "vless", lib);
    } else {
      assert "vmess" + "://" == VmessScheme;
      SchemeSlashSlashParses(link, "vmess", lib);
    }
  }

  /** Hence, for fetched text, the parse step drops nothing: one profile per
      candidate line, in the lines' order. */
  lemma FetchedLinksAllParse(content: string, lib: Library)
    requires AndroidUriParser(lib)
    ensures var lines := Candidates(content);
            var ps := ParseAll(lines, ParserOf(lib));
            && |ps| == |lines|
            && forall i :: 0 <= i < |lines| ==> ps[i].rawConfig == Trim(lines[i])
  {
    var lines := Candidates(content);
    CandidateLines(content);
    forall i | 0 <= i < |lines| ensures ParseLine(lines[i], ParserOf(lib)).Some? {
      ShareLinkParses(Trim(lines[i]), lib);
    }
    ParseAllKeepsEveryParsableLine(lines, ParserOf(lib));
  }

  // ----- Latencies -----

  /** The latency probe: `probe(i, address, port)` is what the i-th
      `performTcpPing` of a refresh returns for `address:port`. Numbering the
      calls lets the same server answer differently each time it is asked. */
  type Probe = (nat, string, int) -> int

  /** `forEach { it.ping = performTcpPing(it.address, it.port) }`: the
      profiles are probed one after another, in list order. */
  function Measured(ps: seq<VpnProfile>, probe: Probe): seq<VpnProfile>
    decreases |ps|
  {
    if ps == [] then []
    else
      var i := |ps| - 1;
      Measured(ps[..i], probe) + [WithPing(ps[i], probe(i, ps[i].address, ps[i].port))]
  }

  /** Each profile gets the result of the probe made for it, the i-th probe
      for the i-th profile, and keeps everything else. */
  lemma {:induction false} MeasuredAt(ps: seq<VpnProfile>, probe: Probe)
    ensures |Measured(ps, probe)| == |ps|
    ensures forall i :: 0 <= i < |ps| ==> Measured(ps, probe)[i] == WithPing(ps[i], probe(i, ps[i].address, ps[i].port))
    decreases |ps|
  {
    if ps != [] {
      var n := |ps| - 1;
      MeasuredAt(ps[..n], probe);
      assert forall i :: 0 <= i < n ==> ps[..n][i] == ps[i];
    }
  }

  // ----- Sorting -----

  /** `if (it.ping <= 0) 99999 else it.ping` */
  function SortKey(p: VpnProfile): (k: int)
    ensures k > 0
    ensures p.ping > 0 ==> k == p.ping
    ensures p.ping <= 0 ==> k == UnreachableKey
  {
    if p.ping <= 0 then UnreachableKey else p.ping
  }

  predicate SortedByKey(s: seq<VpnProfile>) {
    forall i, j :: 0 <= i < j < |s| ==> SortKey(s[i]) <= SortKey(s[j])
  }

  /** Inserts `p` before the first element whose key is not smaller. */
  function Insert(p: VpnProfile, s: seq<VpnProfile>): (r: seq<VpnProfile>)
    ensures multiset(r) == multiset(s) + multiset{p}
  {
    if s == [] || SortKey(p) <= SortKey(s[0]) then [p] + s
    else
      assert s == [s[0]] + s[1..];
      [s[0]] + Insert(p, s[1..])
  }

  /** Kotlin's `sortedBy(key)`: a stable sort, modelled as insertion sort. */
  function SortByKey(s: seq<VpnProfile>): (r: seq<VpnProfile>)
    ensures multiset(r) == multiset(s)
  {
    if s == [] then []
    else
      assert s == [s[0]] + s[1..];
      Insert(s[0], SortByKey(s[1..]))
  }

  /** A profile whose key is at most every key of a sorted list can go first. */
  lemma SortedCons(x: VpnProfile, t: seq<VpnProfile>)
    requires SortedByKey(t)
    requires forall j :: 0 <= j < |t| ==> SortKey(x) <= SortKey(t[j])
    ensures SortedByKey([x] + t)
  {
    var r := [x] + t;
    forall i, j | 0 <= i < j < |r| ensures SortKey(r[i]) <= SortKey(r[j]) {
      assert r[j] == t[j - 1];
      if i > 0 {
        assert r[i] == t[i - 1];
      }
    }
  }

  lemma {:induction false} InsertSorted(p: VpnProfile, s: seq<VpnProfile>)
    requires SortedByKey(s)
    ensures SortedByKey(Insert(p, s))
  {
    if s != [] && SortKey(p) > SortKey(s[0]) {
      var t := Insert(p, s[1..]);
      assert Insert(p, s) == [s[0]] + t;
      assert SortedByKey(t) by {
        InsertSorted(p, s[1..]);
      }
      assert forall j :: 0 <= j < |t| ==> SortKey(s[0]) <= SortKey(t[j]) by {
        forall j | 0 <= j < |t| ensures SortKey(s[0]) <= SortKey(t[j]) {
          assert t[j] in multiset(s[1..]) + multiset{p};
          if t[j] != p {
            var k :| 0 <= k < |s| - 1 && s[1..][k] == t[j];
            assert s[k + 1] == t[j];
          }
        }
      }
      SortedCons(s[0], t);
    }
  }

  /** The sorted list is ordered by key and holds the same profiles. */
  lemma {:induction false} SortByKeySorted(s: seq<VpnProfile>)
    ensures SortedByKey(SortByKey(s))
    ensures multiset(SortByKey(s)) == multiset(s)
  {
    if s != [] {
      SortByKeySorted(s[1..]);
      InsertSorted(s[0], SortByKey(s[1..]));
    }
  }

  /** The profiles of `s` whose key is `k`, in order. */
  function WithKey(s: seq<VpnProfile>, k: int): seq<VpnProfile> {
    if s == [] then []
    else (if SortKey(s[0]) == k then [s[0]] else []) + WithKey(s[1..], k)
  }

  lemma {:induction false} InsertWithKey(p: VpnProfile, s: seq<VpnProfile>, k: int)
    ensures WithKey(Insert(p, s), k) == (if SortKey(p) == k then [p] else []) + WithKey(s, k)
  {
    if s == [] || SortKey(p) <= SortKey(s[0]) {
      assert ([p] + s)[1..] == s;
    } else {
      var t := Insert(p, s[1..]);
      assert ([s[0]] + t)[1..] == t;
      InsertWithKey(p, s[1..], k);
    }
  }

  /** Stability: profiles with equal keys keep their relative order. */
  lemma {:induction false} SortByKeyStable(s: seq<VpnProfile>, k: int)
    ensures WithKey(SortByKey(s), k) == WithKey(s, k)
  {
    if s != [] {
      SortByKeyStable(s[1..], k);
      InsertWithKey(s[0], SortByKey(s[1..]), k);
    }
  }

  /** In a list ordered by key, a server with a measured latency below 99999 ms
      comes before every server whose probe failed (latency <= 0), and the
      first element has the smallest key. */
  lemma SortedReachableFirst(r: seq<VpnProfile>)
    requires SortedByKey(r)
    ensures forall i, j :: 0 <= i < |r| && 0 <= j < |r| && 0 < r[i].ping < UnreachableKey && r[j].ping <= 0 ==> i < j
    ensures r != [] ==> forall x :: x in r ==> SortKey(r[0]) <= SortKey(x)
  {
    forall i, j | 0 <= i < |r| && 0 <= j < |r| && 0 < r[i].ping < UnreachableKey && r[j].ping <= 0
      ensures i < j
    {
      assert SortKey(r[i]) < SortKey(r[j]);
    }
  }

  /** Hence for the sorted list: reachable servers first, and the head is the
      fastest of all the profiles that were sorted. */
  lemma ReachableFirst(s: seq<VpnProfile>)
    ensures var r := SortByKey(s);
            forall i, j :: 0 <= i < |r| && 0 <= j < |r| && 0 < r[i].ping < UnreachableKey && r[j].ping <= 0 ==> i < j
    ensures var r := SortByKey(s);
            r != [] ==> forall x :: x in s ==> SortKey(r[0]) <= SortKey(x)
  {
    var r := SortByKey(s);
    SortByKeySorted(s);
    SortedReachableFirst(r);
    forall x | x in s ensures x in r {
      assert x in multiset(s);
    }
  }

  /** The ranked list: parsed, measured, sorted. */
  function Ranked(content: string, parse: Parser, probe: Probe): seq<VpnProfile> {
    SortByKey(Measured(ParseAll(Candidates(content), parse), probe))
  }

  /** Ranking drops nothing: there are as many ranked profiles as parsed ones. */
  lemma RankedLength(content: string, parse: Parser, probe: Probe)
    ensures |Ranked(content, parse, probe)| == |ParseAll(Candidates(content), parse)|
  {
    var parsed := ParseAll(Candidates(content), parse);
    MeasuredAt(parsed, probe);
    assert |multiset(Ranked(content, parse, probe))| == |multiset(Measured(parsed, probe))|;
  }
}
