/** `MainViewModel`: the server list, the selected server and the bounded
    debug log the UI shows, and the refresh that fetches, ranks and publishes
    the list. The UI's one-line edits of the list (manual import, delete,
    select) are methods here too. Coroutine dispatch is not modelled: each
    operation runs as one atomic step. */
module ViewModel {
  import opened Wrappers
  import opened KotlinText
  import opened Profiles
  import opened ConfigParser
  import opened Ranking

  /** The most entries the debug log keeps. */
  const LogCapacity: nat := 200

  const FetchingMessage: string := "در حال دریافت لیست سرورها..."
  const NoConfigMessage: string := "هیچ کانفیگ معتبری یافت نشد."
  const FoundSuffix: string := " سرور یافت شد. در حال محاسبه پینگ..."
  const UpdatedPrefix: string := "لیست به\U{200C}روز شد. بهترین سرور: "
  const NetworkErrorPrefix: string := "خطا در شبکه: "

  // ----- The bounded log -----

  /** "[$time] $msg", with the clock reading passed in. */
  function LogEntry(time: string, msg: string): string {
    "[" + time + "] " + msg
  }

  /** The log after one `addLog`: the entry is appended, then the oldest entry
      is dropped if the log holds more than `LogCapacity`. */
  function Appended(log: seq<string>, entry: string): (r: seq<string>)
    ensures |log| <= LogCapacity ==> |r| <= LogCapacity
    ensures r != [] && r[|r| - 1] == entry
    ensures |log| < LogCapacity ==> r == log + [entry]
    ensures |log| == LogCapacity ==> r == log[1..] + [entry]
  {
    var grown := log + [entry];
    if |grown| > LogCapacity then grown[1..] else grown
  }

  /** The log after several `addLog` calls in a row. */
  function AppendedAll(log: seq<string>, entries: seq<string>): seq<string>
    decreases |entries|
  {
    if entries == [] then log else AppendedAll(Appended(log, entries[0]), entries[1..])
  }

  /** The last `n` elements of `s` (all of them when there are fewer). */
  function Newest<T>(s: seq<T>, n: nat): (r: seq<T>)
    ensures |r| <= |s| && |r| <= n && r == s[|s| - |r|..]
    ensures |s| >= n ==> |r| == n
    ensures |s| < n ==> r == s
  {
    if |s| <= n then s else s[|s| - n..]
  }

  /** Taking the newest `n` of a suffix that is long enough is the same as
      taking them from the whole sequence. */
  lemma NewestOfSuffix<T>(s: seq<T>, k: nat, n: nat)
    requires k <= |s| && (k == 0 || |s| - k >= n)
    ensures Newest(s[k..], n) == Newest(s, n)
  {
  }

  /** Truncating early changes nothing: the newest `n` of (the newest `n` of
      `s`, then `t`) are the newest `n` of `s` then `t`. */
  lemma NewestThenAppend<T>(s: seq<T>, t: seq<T>, n: nat)
    ensures Newest(Newest(s, n) + t, n) == Newest(s + t, n)
  {
    if |s| > n {
      var k := |s| - n;
      assert Newest(s, n) + t == (s + t)[k..];
      NewestOfSuffix(s + t, k, n);
    }
  }

  /** One `addLog` keeps the newest `LogCapacity` entries. */
  lemma AppendedIsNewest(log: seq<string>, entry: string)
    requires |log| <= LogCapacity
    ensures Appended(log, entry) == Newest(log + [entry], LogCapacity)
  {
  }

  /** However many entries are logged, a log that starts within capacity
      holds exactly the newest `LogCapacity` entries of everything logged. */
  lemma {:induction false} AppendedAllKeepsNewest(log: seq<string>, entries: seq<string>)
    requires |log| <= LogCapacity
    ensures AppendedAll(log, entries) == Newest(log + entries, LogCapacity)
    decreases |entries|
  {
    if entries == [] {
      assert log + entries == log;
    } else {
      var e, rest := entries[0], entries[1..];
      var next := Appended(log, e);
      calc {
        AppendedAll(log, entries);
        AppendedAll(next, rest);
        { AppendedAllKeepsNewest(next, rest); }
        Newest(next + rest, LogCapacity);
        { AppendedIsNewest(log, e); }
        Newest(Newest(log + [e], LogCapacity) + rest, LogCapacity);
        { NewestThenAppend(log + [e], rest, LogCapacity); }
        Newest(log + [e] + rest, LogCapacity);
        { assert log + [e] + rest == log + entries; }
        Newest(log + entries, LogCapacity);
      }
    }
  }

  /** Two `addLog` calls in a row. */
  lemma AppendedAllPair(log: seq<string>, a: string, b: string)
    ensures AppendedAll(log, [a, b]) == Appended(Appended(log, a), b)
  {
    assert [a, b][1..] == [b];
    assert [b][1..] == [];
    assert AppendedAll(Appended(log, a), [b]) == AppendedAll(Appended(Appended(log, a), b), []);
  }

  // ----- The refresh -----

  /** What the HTTP request produced: the response body (null when there is
      none), or the message of the exception it threw (null when it has none). */
  datatype FetchOutcome = Fetched(body: Option<string>) | Failed(message: Option<string>)

  /** Kotlin's string template of a nullable string. */
  function OrNull(s: Option<string>): string {
    s.GetOr("null")
  }

  /** `response.body?.string() ?: ""` */
  function Content(outcome: FetchOutcome): string
    requires outcome.Fetched?
  {
    outcome.body.GetOr("")
  }

  /** `sorted.firstOrNull()` */
  function FirstOrNull(s: seq<VpnProfile>): (r: Option<VpnProfile>)
    ensures r.None? <==> s == []
    ensures r.Some? ==> r.value == s[0]
  {
    if s == [] then None else Some(s[0])
  }

  /** `selectedProfile.value?.name` inside a string template. */
  function NameOrNull(selected: Option<VpnProfile>): string {
    match selected
    case None => "null"
    case Some(p) => p.name
  }

  /** The selection after a refresh that produced `ranked`: an existing
      selection is kept, otherwise the first ranked profile is taken. */
  function SelectionAfter(selected: Option<VpnProfile>, ranked: seq<VpnProfile>): Option<VpnProfile> {
    if selected.None? then FirstOrNull(ranked) else selected
  }

  /** A refresh that starts with no selection selects the fastest server it
      ranked: no ranked profile has a smaller sort key. */
  lemma FreshSelectionIsFastest(content: string, parse: Parser, probe: Probe)
    ensures var ranked := Ranked(content, parse, probe);
            forall p :: SelectionAfter(None, ranked) == Some(p) ==>
              p in ranked && forall q :: q in ranked ==> SortKey(p) <= SortKey(q)
  {
    var measured := Measured(ParseAll(Candidates(content), parse), probe);
    var ranked := Ranked(content, parse, probe);
    if ranked != [] {
      ReachableFirst(measured);
      forall q | q in ranked ensures SortKey(ranked[0]) <= SortKey(q) {
        assert q in multiset(ranked);
        assert q in multiset(measured);
      }
    }
  }

  /** The lines logged once the text has been downloaded, given how many
      profiles were parsed and the ranked list; the first is stamped with
      `clock(1)`. */
  function FetchedLog(count: nat, ranked: seq<VpnProfile>, selected: Option<VpnProfile>,
                      clock: nat -> string): seq<string>
  {
    if count == 0 then [LogEntry(clock(1), NoConfigMessage)]
    else
      [ LogEntry(clock(1), DecimalString(count) + FoundSuffix),
        LogEntry(clock(2), UpdatedPrefix + NameOrNull(SelectionAfter(selected, ranked))) ]
  }

  /** The lines `fetchAndSortConfigs` logs, in order, given the selection it
      starts from; the i-th line is stamped with `clock(i)`. */
  function RefreshLog(outcome: FetchOutcome, parse: Parser, probe: Probe,
                      selected: Option<VpnProfile>, clock: nat -> string): seq<string>
  {
    [LogEntry(clock(0), FetchingMessage)] +
    match outcome
    case Failed(m) => [LogEntry(clock(1), NetworkErrorPrefix + OrNull(m))]
    case Fetched(_) =>
      var content := Content(outcome);
      FetchedLog(|ParseAll(Candidates(content), parse)|, Ranked(content, parse, probe), selected, clock)
  }

  /** The `forEach` that stores each server's probe result in its profile;
      the i-th iteration makes the i-th probe. */
  method MeasureAll(parsed: seq<VpnProfile>, probe: Probe) returns (measured: seq<VpnProfile>)
    ensures |measured| == |parsed|
    ensures forall i :: 0 <= i < |parsed| ==> measured[i] == WithPing(parsed[i], probe(i, parsed[i].address, parsed[i].port))
    ensures measured == Measured(parsed, probe)
  {
    MeasuredAt(parsed, probe);
    measured := [];
    var i := 0;
    while i < |parsed|
      invariant 0 <= i <= |parsed|
      invariant measured == Measured(parsed[..i], probe)
    {
      assert parsed[..i + 1][..i] == parsed[..i];
      measured := measured + [WithPing(parsed[i], probe(i, parsed[i].address, parsed[i].port))];
      i := i + 1;
    }
    assert parsed[..i] == parsed;
  }

  // ----- The list edits the UI makes -----

  /** The position of the first element equal to `x`. */
  function FirstIndex(s: seq<VpnProfile>, x: VpnProfile): (i: nat)
    requires x in s
    ensures i < |s| && s[i] == x && x !in s[..i]
  {
    if s[0] == x then 0
    else
      var j := FirstIndex(s[1..], x);
      assert s[..j + 1] == [s[0]] + s[1..][..j];
      j + 1
  }

  /** Kotlin's `MutableList.remove(element)`: removes the first element equal
      to `x`, if there is one. */
  function RemoveFirst(s: seq<VpnProfile>, x: VpnProfile): (r: seq<VpnProfile>)
    ensures x !in s ==> r == s
    ensures x in s ==> exists i :: 0 <= i < |s| && s[i] == x && x !in s[..i] && r == s[..i] + s[i + 1..]
    ensures multiset(r) == multiset(s) - multiset{x}
  {
    if x !in s then s
    else
      var i := FirstIndex(s, x);
      assert s == s[..i] + [x] + s[i + 1..];
      s[..i] + s[i + 1..]
  }

  // ----- The view-model -----

  class MainViewModel {
    var vpnProfiles: seq<VpnProfile>
    var selectedProfile: Option<VpnProfile>
    var logBuffer: seq<string>

    ghost predicate Valid()
      reads this
    {
      |logBuffer| <= LogCapacity
    }

    constructor ()
      ensures Valid()
      ensures vpnProfiles == [] && selectedProfile == None && logBuffer == []
    {
      vpnProfiles := [];
      selectedProfile := None;
      logBuffer := [];
    }

    /** Selection highlighting compares by equality: every entry equal to the
        selected profile is highlighted. */
    predicate IsSelected(p: VpnProfile)
      reads this
    {
      selectedProfile == Some(p)
    }

    /** `addLog(msg)`, with the formatted clock reading as `time`. */
    method AddLog(time: string, msg: string)
      requires Valid()
      modifies this`logBuffer
      ensures Valid()
      ensures logBuffer == Appended(old(logBuffer), LogEntry(time, msg))
    {
      logBuffer := logBuffer + [LogEntry(time, msg)];
      if |logBuffer| > LogCapacity {
        logBuffer := logBuffer[1..];
      }
    }

    /** `fetchAndSortConfigs`, given what the download produced, the share-link
        parser (`ParserOf(lib)` in the app), the latency probe and the clock. A
        failed download or text without a parsable share link leaves the list
        and the selection as they were. Otherwise the list becomes exactly the
        ranked profiles, and the best of them is selected only when nothing was
        selected before: an earlier selection stays, even if the new list does
        not contain it. */
    method FetchAndSortConfigs(outcome: FetchOutcome, parse: Parser, probe: Probe, clock: nat -> string)
      requires Valid()
      modifies this
      ensures Valid()
      ensures logBuffer == AppendedAll(old(logBuffer), RefreshLog(outcome, parse, probe, old(selectedProfile), clock))
      ensures outcome.Failed? ==> vpnProfiles == old(vpnProfiles) && selectedProfile == old(selectedProfile)
      ensures outcome.Fetched? ==>
                var ranked := Ranked(Content(outcome), parse, probe);
                if ranked == [] then
                  vpnProfiles == old(vpnProfiles) && selectedProfile == old(selectedProfile)
                else
                  && vpnProfiles == ranked
                  && selectedProfile == (if old(selectedProfile).None? then Some(ranked[0]) else old(selectedProfile))
    {
      ghost var log0, sel0 := logBuffer, selectedProfile;
      var first := LogEntry(clock(0), FetchingMessage);
      AddLog(clock(0), FetchingMessage);
      ghost var rest: seq<string>;
      match outcome {
        case Failed(m) =>
          var failure := LogEntry(clock(1), NetworkErrorPrefix + OrNull(m));
          rest := [failure];
          AddLog(clock(1), NetworkErrorPrefix + OrNull(m));
          assert AppendedAll(Appended(log0, first), rest) == AppendedAll(Appended(Appended(log0, first), failure), []);
        case Fetched(body) =>
          var content := Content(outcome);
          rest := FetchedLog(|ParseAll(Candidates(content), parse)|, Ranked(content, parse, probe), sel0, clock);
          RankAndPublish(content, parse, probe, clock);
      }
      assert RefreshLog(outcome, parse, probe, sel0, clock) == [first] + rest;
      assert ([first] + rest)[0] == first && ([first] + rest)[1..] == rest;
    }

    /** The body of the coroutine once the text has been downloaded: parse it;
        stop with a message when nothing parsed; otherwise log the count,
        measure, sort and publish. */
    method RankAndPublish(content: string, parse: Parser, probe: Probe, clock: nat -> string)
      requires Valid()
      modifies this
      ensures Valid()
      ensures logBuffer == AppendedAll(old(logBuffer),
                FetchedLog(|ParseAll(Candidates(content), parse)|, Ranked(content, parse, probe), old(selectedProfile), clock))
      ensures var ranked := Ranked(content, parse, probe);
              if ranked == [] then
                vpnProfiles == old(vpnProfiles) && selectedProfile == old(selectedProfile)
              else
                && vpnProfiles == ranked
                && selectedProfile == (if old(selectedProfile).None? then Some(ranked[0]) else old(selectedProfile))
    {
      ghost var log0, sel0 := logBuffer, selectedProfile;
      var parsed := ParseAll(Candidates(content), parse);
      if parsed == [] {
        RankedLength(content, parse, probe);
        var none := LogEntry(clock(1), NoConfigMessage);
        AddLog(clock(1), NoConfigMessage);
        assert AppendedAll(log0, [none]) == AppendedAll(Appended(log0, none), []);
        return;
      }
      var found := LogEntry(clock(1), DecimalString(|parsed|) + FoundSuffix);
      AddLog(clock(1), DecimalString(|parsed|) + FoundSuffix);
      var measured := MeasureAll(parsed, probe);
      var sorted := SortByKey(measured);
      assert sorted == Ranked(content, parse, probe);
      assert sorted != [] by { assert |multiset(sorted)| == |multiset(measured)| == |parsed|; }
      Publish(sorted, clock(2));
      assert selectedProfile == (if sel0.None? then Some(sorted[0]) else sel0) by {
        assert SelectionAfter(sel0, sorted) == (if sel0.None? then Some(sorted[0]) else sel0);
      }
      var updated := LogEntry(clock(2), UpdatedPrefix + NameOrNull(selectedProfile));
      assert FetchedLog(|parsed|, sorted, sel0, clock) == [found, updated];
      AppendedAllPair(log0, found, updated);
    }

    /** The block run back on the main thread: the list is replaced by
        `sorted`, the first profile is selected when nothing was, and the
        resulting selection is logged. */
    method Publish(sorted: seq<VpnProfile>, time: string)
      requires Valid()
      modifies this
      ensures Valid()
      ensures vpnProfiles == sorted
      ensures selectedProfile == SelectionAfter(old(selectedProfile), sorted)
      ensures logBuffer == Appended(old(logBuffer), LogEntry(time, UpdatedPrefix + NameOrNull(selectedProfile)))
    {
      vpnProfiles := [];
      vpnProfiles := vpnProfiles + sorted;
      if selectedProfile.None? {
        selectedProfile := FirstOrNull(sorted);
      }
      AddLog(time, UpdatedPrefix + NameOrNull(selectedProfile));
    }

    /** The manual import: `parse(inputLink)?.let { vpnProfiles.add(0, it) }`.
        The link is neither trimmed nor checked for a scheme, and the new
        profile goes first, unmeasured. */
    method ImportLink(link: string, lib: Library)
      requires Valid()
      modifies this`vpnProfiles
      ensures Valid()
      ensures Parse(link, lib).None? ==> vpnProfiles == old(vpnProfiles)
      ensures Parse(link, lib).Some? ==> vpnProfiles == [Parse(link, lib).value] + old(vpnProfiles)
    {
      var parsed := Parse(link, lib);
      if parsed.Some? {
        vpnProfiles := [parsed.value] + vpnProfiles;
      }
    }

    /** Deleting an entry: `vpnProfiles.remove(profile)` removes the first
        entry equal to it. The selection is not touched, so a deleted
        selected profile stays selected. */
    method Delete(p: VpnProfile)
      requires Valid()
      modifies this`vpnProfiles
      ensures Valid()
      ensures vpnProfiles == RemoveFirst(old(vpnProfiles), p)
    {
      vpnProfiles := RemoveFirst(vpnProfiles, p);
    }

    /** Tapping an entry selects it. */
    method Select(p: VpnProfile)
      requires Valid()
      modifies this`selectedProfile
      ensures Valid()
      ensures selectedProfile == Some(p)
      ensures forall q :: IsSelected(q) <==> q == p
    {
      selectedProfile := Some(p);
    }
  }
}
