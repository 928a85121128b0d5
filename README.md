# Mette VPN: share-link parsing, server ranking and the view-model, in Dafny

Mette VPN is an Android client for a VLESS/REALITY proxy. This project models the part of the app
that holds its logic:

- **`VpnProfile`**, the record for one server (`vpn_profile.dfy`). It is a datatype. The one field
  the app writes after construction, `ping`, is updated functionally with `WithPing`.
- **`ConfigParser.parse`** (`config_parser.dfy`). It turns a share link into a profile. The profile's
  `fullJson` is the proxy core's configuration. That configuration is modelled as a typed record
  with the source's sections, keys and constants: one SOCKS inbound, the outbounds `proxy`,
  `direct` and `block`, the DNS block and four routing rules. The module also gives the rules
  their meaning: the proxy core routes a connection by the first rule that matches it, and sends a
  connection no rule matches to the first outbound listed. Lemmas then state where DNS, Iranian and
  private domains, and all other traffic go.
- **The refresh pipeline of `MainViewModel.fetchAndSortConfigs`** (`ranking.dfy`). These are pure
  functions over the downloaded text:
  - split the text into lines;
  - keep the lines that start with `vless://` or `vmess://`;
  - trim and parse each kept line, dropping failures and keeping order;
  - attach each server's probe result;
  - sort stably by `ping <= 0 ? 99999 : ping`.
- **The `MainViewModel` class** (`main_view_model.dfy`). Its fields are `vpnProfiles`,
  `selectedProfile` and the 200-entry `logBuffer`. Its methods are:
  - `AddLog`;
  - `FetchAndSortConfigs`, with the body of its background coroutine as `RankAndPublish` and the
    main-thread publish step as `Publish`;
  - the list edits the main screen makes: manual import, delete and select.
- **`kotlin_text.dfy`** models the Kotlin standard-library text operations the code depends on:
  `isWhitespace`, `trim`, `lines()` and `Int.toString`. It also models Go's `strings.Split`, which
  the proxy core applies to the routing rule's `"tcp,udp"` when it reads the configuration.

Some of the app's inputs come from outside the model and are passed in as parameters:
- `Library.parseUri` stands for `android.net.Uri.parse`, reduced to the components `parse` reads.
- `Library.serialize` stands for `JSONObject.toString`.
- A `FetchOutcome` stands for the HTTP download. It is either a body or the exception's message.
- A probe function `(i, host, port) -> ms` stands for `performTcpPing`: its value is what the i-th
  probe of a refresh returns. The same server can therefore measure differently each time.
- A `clock` stands for the formatted time of each log entry.

The ranking steps and `FetchAndSortConfigs` take the parser as a function of type `Parser`.
`Ranking.ParserOf(lib)` is `ConfigParser.parse`, and that is the parser the app uses. The
pipeline lemmas therefore hold for any parser; those that need properties of the real parser state them as hypotheses
(`KeepsRawLink`) or take the `Library` directly.

Behaviour of the code worth noting:
- The default port 443 is used only when `Uri.getPort()` returns -1. A port of 0 passes through
  unchanged.
- A probe result `<= 0`, including 0 ms, sorts as unreachable (key 99999).
- The code does not remove duplicate links. It reports no parse error beyond returning null.

## Model

| member | source | states |
|---|---|---|
| KotlinText.IsWhitespace | app/src/main/java/com/mette/vpn/MainViewModel.kt:54 | the characters `trim()` removes: those Kotlin's `Char.isWhitespace` accepts; TrimStart, TrimEnd and Trim state what is cut |
| KotlinText.TrimStart | app/src/main/java/com/mette/vpn/MainViewModel.kt:54 | the result is a suffix of the input; everything it drops is whitespace; it does not start with whitespace |
| KotlinText.TrimEnd | app/src/main/java/com/mette/vpn/MainViewModel.kt:54 | the result is a prefix of the input; everything it drops is whitespace; it does not end with whitespace |
| KotlinText.Trim | app/src/main/java/com/mette/vpn/MainViewModel.kt:54 | `trim()` returns the slice of the line between its leading and its trailing whitespace: everything cut off on either side is whitespace, and the result neither starts nor ends with whitespace |
| KotlinText.TrimKeepsPrefix | app/src/main/java/com/mette/vpn/MainViewModel.kt:53-54 | a line that starts with a non-blank prefix keeps that prefix after `trim()`, and trimming then only removes trailing whitespace |
| KotlinText.Lines | app/src/main/java/com/mette/vpn/MainViewModel.kt:52 | `lines()` yields at least one line, and no line contains a line break |
| KotlinText.LineSeparators | app/src/main/java/com/mette/vpn/MainViewModel.kt:52 | `lines()` cuts the text at one separator fewer than it has lines, and every separator is "\r\n", "\n" or "\r" |
| KotlinText.JoinLinesOfLines | app/src/main/java/com/mette/vpn/MainViewModel.kt:52 | putting the lines back together with the separators `lines()` cut at (each "\r\n", "\n" or "\r") gives back the text |
| KotlinText.LinesOfJoinLines | app/src/main/java/com/mette/vpn/MainViewModel.kt:52 | splitting lines joined with "\r\n", "\n" or "\r" separators gives back exactly those lines and separators, unless a "\r", an empty line and a "\n" in a row read as one "\r\n" |
| KotlinText.IndexOf | app/src/main/java/com/mette/vpn/utils/ConfigParser.kt:113 | the first position of the separator, or the length when it does not occur |
| KotlinText.Split | app/src/main/java/com/mette/vpn/utils/ConfigParser.kt:113 | splitting gives at least one part, no part contains the separator, and the parts joined with the separator give back the text |
| KotlinText.DecimalString | app/src/main/java/com/mette/vpn/MainViewModel.kt:61 | the count is printed as decimal digits with no leading zero |
| KotlinText.DecimalRoundTrip | app/src/main/java/com/mette/vpn/MainViewModel.kt:61 | reading the printed count back gives the count |
| Profiles.WithPing | app/src/main/java/com/mette/vpn/MainViewModel.kt:63 | writing `ping` sets it to the probe result and leaves the seven other fields unchanged |
| Profiles.DefaultsOfNewProfile | app/src/main/java/com/mette/vpn/utils/VpnProfile.kt:10-11 | a profile built without `ping` has ping -1 (unmeasured); one built without `fullJson` has the empty string |
| Profiles.PingIsTheOnlyMutableField | app/src/main/java/com/mette/vpn/utils/VpnProfile.kt:4-11 | writing `ping` keeps the identity fields; the last write wins; writing the same value is a no-op |
| Profiles.EqualityIsStructural | app/src/main/java/com/mette/vpn/utils/VpnProfile.kt:3-12 | two profiles are equal exactly when all their fields, including `ping`, are equal |
| ConfigParser.QueryParameter | app/src/main/java/com/mette/vpn/utils/ConfigParser.kt:15-18 | `getQueryParameter` returns null exactly when no pair has the name, and otherwise a value paired with the name |
| ConfigParser.Param | app/src/main/java/com/mette/vpn/utils/ConfigParser.kt:15-18 | `getQueryParameter(name) ?: ""`: the parameter's value, or "" when it is missing; RealityFromLink and ProxyUserFromLink state the values used |
| ConfigParser.LinkPort | app/src/main/java/com/mette/vpn/utils/ConfigParser.kt:12 | the server port is the link's port, or 443 when the URI reports -1 |
| ConfigParser.ProxyOutbound | app/src/main/java/com/mette/vpn/utils/ConfigParser.kt:44-69 | the proxy outbound: vless, tagged proxy, one server with one user, tcp with REALITY; its properties are stated by ProxyUserFromLink and RealityFromLink |
| ConfigParser.LinkConfig | app/src/main/java/com/mette/vpn/utils/ConfigParser.kt:20-116 | the configuration built from a link: one SOCKS inbound, the proxy, direct and block outbounds, the DNS block and the routing rules; its properties are stated by ShapeIndependentOfLink and the lemmas after it |
| ConfigParser.Parse | app/src/main/java/com/mette/vpn/utils/ConfigParser.kt:8-127 | null exactly when the link is an opaque URI; otherwise the profile keeps the input link as `rawConfig`, is unmeasured, and its `fullJson` is the serialised configuration built from the link |
| ConfigParser.HierarchicalText | app/src/main/java/com/mette/vpn/utils/ConfigParser.kt:10-15 | Android's rule for when `Uri.parse` gives a hierarchical URI (text with no ':', or a '/' right after the first ':'); SchemeSlashSlashParses uses it |
| ConfigParser.SchemeSlashSlashParses | app/src/main/java/com/mette/vpn/utils/ConfigParser.kt:10-127 | under Android's URI rules, every link of the form `scheme://...` yields a profile |
| ConfigParser.ProfileMatchesProxyServer | app/src/main/java/com/mette/vpn/utils/ConfigParser.kt:118-126 | the profile's address and port are the proxy outbound's server; the address is the host or ""; the port is the link's port, or 443 when it is -1; the kind is "VLESS" and the protocol is "vless" even for a vmess link |
| ConfigParser.ProxyUserFromLink | app/src/main/java/com/mette/vpn/utils/ConfigParser.kt:51-55 | the user id is the link's user info or ""; encryption is "none"; a `flow` key is present if and only if the link's flow parameter is non-empty, and then it has that value |
| ConfigParser.RealityFromLink | app/src/main/java/com/mette/vpn/utils/ConfigParser.kt:58-68 | the proxy outbound uses tcp with REALITY, fingerprint chrome, spiderX "/", and takes serverName, publicKey and shortId from sni, pbk and sid ("" when missing) |
| ConfigParser.ShapeIndependentOfLink | app/src/main/java/com/mette/vpn/utils/ConfigParser.kt:20-116 | every link yields the same single SOCKS inbound, exactly three outbounds tagged proxy, direct and block in that order, and DNS and routing sections equal to the fixed policies written in the source |
| ConfigParser.OnlyCatchAllRuleProxies | app/src/main/java/com/mette/vpn/utils/ConfigParser.kt:106-116 | there are four rules, and only the last one sends traffic to "proxy" |
| ConfigParser.Matches | app/src/main/java/com/mette/vpn/utils/ConfigParser.kt:110-113 | what each rule condition means to the proxy core: the port, the protocol, one of the domain lists, or the comma-separated networks; RuleConditions states it for the four rules |
| ConfigParser.Route | app/src/main/java/com/mette/vpn/utils/ConfigParser.kt:109-114 | a connection matches no rule exactly when none of the rules matches it, and otherwise takes the tag of the first rule that matches it |
| ConfigParser.PortRuleValue | app/src/main/java/com/mette/vpn/utils/ConfigParser.kt:110 | the port rule's "53" reads as port 53 |
| ConfigParser.NetworkRuleValue | app/src/main/java/com/mette/vpn/utils/ConfigParser.kt:113 | the catch-all rule's "tcp,udp" splits into exactly the two networks tcp and udp |
| ConfigParser.DomainRuleMatches | app/src/main/java/com/mette/vpn/utils/ConfigParser.kt:112 | the third rule matches exactly the connections to a geosite:ir or geosite:private domain |
| ConfigParser.NetworkRuleMatches | app/src/main/java/com/mette/vpn/utils/ConfigParser.kt:113 | the catch-all rule matches exactly the tcp and udp connections |
| ConfigParser.RuleConditions | app/src/main/java/com/mette/vpn/utils/ConfigParser.kt:110-113 | what each of the four rules matches: port 53, protocol dns, a geosite:ir or geosite:private domain, and network tcp or udp |
| ConfigParser.RouteOfFour | app/src/main/java/com/mette/vpn/utils/ConfigParser.kt:109-114 | with four rules, a connection takes the outbound of the first of them that matches it, and matches no rule when none does |
| ConfigParser.DnsBypassesProxy | app/src/main/java/com/mette/vpn/utils/ConfigParser.kt:110-111 | traffic to port 53 or with protocol dns goes direct |
| ConfigParser.RegionalBypassesProxy | app/src/main/java/com/mette/vpn/utils/ConfigParser.kt:112 | traffic to Iranian or private domains goes direct |
| ConfigParser.EverythingElseProxied | app/src/main/java/com/mette/vpn/utils/ConfigParser.kt:113 | all other tcp or udp traffic goes to the proxy by the catch-all rule; traffic on any other network matches no rule |
| ConfigParser.Dispatch | app/src/main/java/com/mette/vpn/utils/ConfigParser.kt:41-116 | a connection no rule matches leaves through the first outbound listed; otherwise it takes the tag of the first rule that matches it |
| ConfigParser.LinkTrafficDispatch | app/src/main/java/com/mette/vpn/utils/ConfigParser.kt:44-116 | under the configuration built from any link, DNS traffic and traffic to Iranian or private domains go direct, and every other connection, on any network, goes to the proxy |
| Ranking.IsShareLink | app/src/main/java/com/mette/vpn/MainViewModel.kt:53 | the filter tests the untrimmed line for the vless:// or vmess:// prefix; IndentedLineIsNotShareLink and ShareLinkTrim state its consequences |
| Ranking.ShareLinks | app/src/main/java/com/mette/vpn/MainViewModel.kt:53 | keeps exactly the untrimmed lines that start with vless:// or vmess://, in their order |
| Ranking.ShareLinksCount | app/src/main/java/com/mette/vpn/MainViewModel.kt:53 | the filter keeps every share link as many times as it occurs and drops every other line |
| Ranking.Candidates | app/src/main/java/com/mette/vpn/MainViewModel.kt:52-53 | `content.lines().filter { … }`: the share links among the lines, in order; CandidateLines states it |
| Ranking.ParserKeepsRawLink | app/src/main/java/com/mette/vpn/utils/ConfigParser.kt:118-124 | the parser returns profiles whose raw link is exactly the link it was given |
| Ranking.MapNotNull | app/src/main/java/com/mette/vpn/MainViewModel.kt:54 | `mapNotNull` returns at most one result per line |
| Ranking.MapNotNullAppend | app/src/main/java/com/mette/vpn/MainViewModel.kt:54 | `mapNotNull` of two lists one after the other is the concatenation of their results |
| Ranking.MapNotNullKeepsAccepted | app/src/main/java/com/mette/vpn/MainViewModel.kt:54 | the value of every line the function accepts is among the results |
| Ranking.MapNotNullOrigin | app/src/main/java/com/mette/vpn/MainViewModel.kt:54 | every result of `mapNotNull` is the function's value on one of the lines |
| Ranking.MapNotNullKeepsAll | app/src/main/java/com/mette/vpn/MainViewModel.kt:54 | when the function accepts every line, nothing is dropped and the i-th result is its value on the i-th line |
| Ranking.ParseLine | app/src/main/java/com/mette/vpn/MainViewModel.kt:54 | `ConfigParser.parse(it.trim())`: the line is trimmed before it is parsed; ShareLinkParses and ParseAllOrigin state what it yields |
| Ranking.ParseAll | app/src/main/java/com/mette/vpn/MainViewModel.kt:54 | the parse step yields at most one profile per line |
| Ranking.ParseAllOrigin | app/src/main/java/com/mette/vpn/MainViewModel.kt:54 | every profile is the parse of one of the lines, trimmed |
| Ranking.ParseAllKeepsOrder | app/src/main/java/com/mette/vpn/MainViewModel.kt:54 | for a parser that keeps its input as the raw link, the profiles' raw links appear in the same order as their trimmed lines |
| Ranking.ParseAllKeepsEveryParsableLine | app/src/main/java/com/mette/vpn/MainViewModel.kt:54 | when every line parses, nothing is dropped and the i-th profile is the parse of the i-th line |
| Ranking.ParseAllKeepsParsable | app/src/main/java/com/mette/vpn/MainViewModel.kt:54 | the profile of every line that parses once trimmed is among the parsed profiles |
| Ranking.ParseAllAppend | app/src/main/java/com/mette/vpn/MainViewModel.kt:54 | parsing two lists one after the other gives the concatenation of their profiles |
| Ranking.CandidateLines | app/src/main/java/com/mette/vpn/MainViewModel.kt:52-54 | a kept line never starts with whitespace, so a line with leading whitespace is dropped; trimming a kept line only removes trailing whitespace and keeps the scheme |
| Ranking.ShareLinkTrim | app/src/main/java/com/mette/vpn/MainViewModel.kt:53-54 | trimming a line that starts with a scheme keeps the scheme and only removes trailing whitespace |
| Ranking.IndentedLineIsNotShareLink | app/src/main/java/com/mette/vpn/MainViewModel.kt:53 | a line that starts with whitespace does not pass the scheme filter |
| Ranking.ShareLinkParses | app/src/main/java/com/mette/vpn/MainViewModel.kt:53-54 | under Android's URI rules, every trimmed vless:// or vmess:// line parses |
| Ranking.FetchedLinksAllParse | app/src/main/java/com/mette/vpn/MainViewModel.kt:52-54 | under Android's URI rules, the parser drops no share-link line: the i-th profile's raw link is the i-th kept line, trimmed |
| Ranking.Measured | app/src/main/java/com/mette/vpn/MainViewModel.kt:63 | `forEach` probes the profiles one after another, in list order; MeasuredAt and MeasureAll state it |
| Ranking.MeasuredAt | app/src/main/java/com/mette/vpn/MainViewModel.kt:63 | the i-th profile gets the result of the i-th probe, made for its own address and port, and keeps everything else |
| Ranking.SortKey | app/src/main/java/com/mette/vpn/MainViewModel.kt:64 | the sort key is always positive: the ping when it is positive, and 99999 when it is not |
| Ranking.Insert | app/src/main/java/com/mette/vpn/MainViewModel.kt:64 | inserting adds exactly the one profile |
| Ranking.SortByKey | app/src/main/java/com/mette/vpn/MainViewModel.kt:64 | the sorted list is a permutation of its input |
| Ranking.InsertSorted | app/src/main/java/com/mette/vpn/MainViewModel.kt:64 | inserting into a list sorted by key keeps it sorted |
| Ranking.SortByKeySorted | app/src/main/java/com/mette/vpn/MainViewModel.kt:64 | `sortedBy` orders by `ping <= 0 ? 99999 : ping` and is a permutation of the list |
| Ranking.InsertWithKey | app/src/main/java/com/mette/vpn/MainViewModel.kt:64 | inserting puts a profile in front of every profile with the same key |
| Ranking.SortByKeyStable | app/src/main/java/com/mette/vpn/MainViewModel.kt:64 | the sort is stable: profiles with equal keys keep their parse order |
| Ranking.SortedCons | app/src/main/java/com/mette/vpn/MainViewModel.kt:64 | a profile whose key is at most every key of a sorted list can be put in front of it |
| Ranking.SortedReachableFirst | app/src/main/java/com/mette/vpn/MainViewModel.kt:64 | in any list sorted by the key, servers with 0 < ping < 99999 precede those with ping <= 0, and the head has the smallest key |
| Ranking.ReachableFirst | app/src/main/java/com/mette/vpn/MainViewModel.kt:64 | every server with 0 < ping < 99999 precedes every server with ping <= 0, and the first server has the smallest key |
| Ranking.Ranked | app/src/main/java/com/mette/vpn/MainViewModel.kt:52-64 | the ranked list is the candidate lines parsed, measured and sorted; RankedLength, ReachableFirst and FreshSelectionIsFastest state its properties |
| Ranking.RankedLength | app/src/main/java/com/mette/vpn/MainViewModel.kt:52-64 | the ranked list has as many profiles as were parsed |
| ViewModel.LogEntry | app/src/main/java/com/mette/vpn/MainViewModel.kt:38 | a log entry is "[time] msg" |
| ViewModel.Appended | app/src/main/java/com/mette/vpn/MainViewModel.kt:38-39 | the new entry is last; below capacity it is simply appended; at capacity exactly the oldest entry is removed; a log within 200 entries stays within 200 |
| ViewModel.AppendedAll | app/src/main/java/com/mette/vpn/MainViewModel.kt:38-39 | a run of `addLog` calls, one entry after another; AppendedAllKeepsNewest states that it keeps exactly the newest 200 |
| ViewModel.Newest | app/src/main/java/com/mette/vpn/MainViewModel.kt:39 | the newest n entries are a suffix of the log of length n, or the whole log when it is shorter |
| ViewModel.NewestOfSuffix | app/src/main/java/com/mette/vpn/MainViewModel.kt:39 | dropping old entries that are not among the newest n does not change the newest n |
| ViewModel.NewestThenAppend | app/src/main/java/com/mette/vpn/MainViewModel.kt:38-39 | truncating to the newest n before appending more gives the same newest n as truncating afterwards |
| ViewModel.AppendedIsNewest | app/src/main/java/com/mette/vpn/MainViewModel.kt:38-39 | one `addLog` on a log within capacity leaves exactly the newest 200 entries |
| ViewModel.AppendedAllKeepsNewest | app/src/main/java/com/mette/vpn/MainViewModel.kt:38-39 | after any number of `addLog` calls, the log holds exactly the newest 200 of all entries, in order |
| ViewModel.Content | app/src/main/java/com/mette/vpn/MainViewModel.kt:49 | `response.body?.string() ?: ""`: the body, or "" when there is none |
| ViewModel.FirstOrNull | app/src/main/java/com/mette/vpn/MainViewModel.kt:69 | `firstOrNull()` is null exactly for the empty list, and otherwise the first element |
| ViewModel.SelectionAfter | app/src/main/java/com/mette/vpn/MainViewModel.kt:69 | a refresh keeps an existing selection, and otherwise selects the first ranked profile; FreshSelectionIsFastest states which one that is |
| ViewModel.NameOrNull | app/src/main/java/com/mette/vpn/MainViewModel.kt:70 | `${selectedProfile.value?.name}`: the selected profile's name, or "null" when nothing is selected |
| ViewModel.FreshSelectionIsFastest | app/src/main/java/com/mette/vpn/MainViewModel.kt:64-69 | a refresh that starts with no selection selects a ranked server, and no ranked server has a smaller sort key |
| ViewModel.FetchedLog | app/src/main/java/com/mette/vpn/MainViewModel.kt:56-70 | the lines logged after the download: the no-config message, or the count and the selected server's name; RankAndPublish states that it logs them |
| ViewModel.OrNull | app/src/main/java/com/mette/vpn/MainViewModel.kt:73 | `${e.message}`: the exception's message, or "null" when it has none |
| ViewModel.RefreshLog | app/src/main/java/com/mette/vpn/MainViewModel.kt:44-73 | the lines a refresh logs: the fetching message, then either the network error, or the no-config message, or the count and the selected server's name |
| ViewModel.MeasureAll | app/src/main/java/com/mette/vpn/MainViewModel.kt:63 | the loop gives the i-th parsed profile the result of the i-th probe, in order |
| ViewModel.RemoveFirst | app/src/main/java/com/mette/vpn/MainActivity.kt:174 | `remove(element)` leaves the list alone when the element is absent, otherwise removes exactly its first occurrence |
| ViewModel.MainViewModel.constructor | app/src/main/java/com/mette/vpn/MainViewModel.kt:21-29 | the list, the selection and the log start empty |
| ViewModel.MainViewModel.AddLog | app/src/main/java/com/mette/vpn/MainViewModel.kt:35-41 | appends "[time] msg" and drops the oldest entry when there are more than 200; the log stays within 200 |
| ViewModel.MainViewModel.FetchAndSortConfigs | app/src/main/java/com/mette/vpn/MainViewModel.kt:43-76 | logs the source's messages in order; after a network error or when no line parses, the list and selection are unchanged; otherwise the list becomes exactly the ranked profiles, and the first of them is selected only if nothing was selected |
| ViewModel.MainViewModel.RankAndPublish | app/src/main/java/com/mette/vpn/MainViewModel.kt:49-71 | once the text is downloaded: when no line parses, only the no-config message is logged; otherwise the count is logged and the ranked list is published |
| ViewModel.MainViewModel.Publish | app/src/main/java/com/mette/vpn/MainViewModel.kt:66-71 | clear and addAll make the list exactly the sorted one; an existing selection is kept even if it is not in the new list; the resulting selection's name is logged |
| ViewModel.MainViewModel.ImportLink | app/src/main/java/com/mette/vpn/MainActivity.kt:195 | a manually entered link that parses goes to the front of the list, untrimmed and unmeasured; one that does not parse changes nothing |
| ViewModel.MainViewModel.Delete | app/src/main/java/com/mette/vpn/MainActivity.kt:174 | deleting removes the first entry equal to the profile and leaves the selection alone |
| ViewModel.MainViewModel.Select | app/src/main/java/com/mette/vpn/MainActivity.kt:172-173 | tapping an entry selects it, and exactly the entries equal to it are then highlighted |
| ViewModel.MainViewModel.IsSelected | app/src/main/java/com/mette/vpn/MainActivity.kt:172 | an entry is highlighted when it equals the selected profile; Select states that exactly the entries equal to the tapped one are |

## Left out

- The HTTP download (OkHttp) is not modelled; its result is the `FetchOutcome` input.
- `performTcpPing` is not modelled; it is the `probe` input, numbered by call. The one-second connect timeout is not modelled. The 64-bit `Long` of the measured time is not modelled either.
- The clock and `SimpleDateFormat("HH:mm:ss")` are not modelled; the formatted time of each entry is the `clock` input.
- `android.net.Uri.parse` is not modelled. The link's components are the `Library.parseUri` input. Android's rule for telling hierarchical from opaque URIs is stated as the `AndroidUriParser` hypothesis, and only the lemmas that need it assume it.
- `JSONObject.toString` is not modelled. The configuration is a typed record, and `fullJson` is `Library.serialize` of it. Key order and the JSON text itself are not modelled.
- Coroutine dispatch is not modelled (`viewModelScope.launch`, `Dispatchers.IO`/`Main`, `withContext`, and `addLog` posting to the main thread). Each operation runs as one atomic step, so refreshes running at the same time and interleaved log posts are out of scope.
- ViewModel.MeasureAll: the source writes `ping` into the parsed profile objects in place. The model builds new values instead. Nothing else refers to those objects yet, so the difference cannot be observed.
- Ranking.SortByKey: Kotlin's `sortedBy` is modelled as an insertion sort. Any stable sort by the same key gives the same list, and the lemmas state sortedness, permutation and stability.
- `startStatsUpdate` and `formatSpeed` are not modelled: they are a polling loop over OS traffic counters with floating-point formatting. `isConnected` and the speed and ping text fields are not modelled either.
- The VPN service (`MetteVpnService.kt`), the native-core bindings (`V2rayConfig.kt`) and the rest of `MainActivity.kt` are not modelled: they are Android plumbing, foreign calls and UI layout.
- KotlinText.IsWhitespace lists the code points Kotlin's `Char.isWhitespace` accepts. Unicode tables are not derived.
- ConfigParser.Dispatch: the proxy core's routing is reduced to the four rule kinds the configuration uses, with domain lists given as the connection's geosite tags. The `IPIfNonMatch` domain strategy, which resolves a domain and retries the rules on its IP address, is not modelled; no rule here matches on IP addresses, so a retry could not change the result.
- KotlinText.Lines: `lines()` splits on "\r\n", "\n" and "\r"; the round trip with `JoinLines` needs the lines and separators to be unambiguous (`SeparatorsUnambiguous`), since a "\r", an empty line and a "\n" read back as one "\r\n".
