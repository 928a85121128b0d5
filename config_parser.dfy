/** `ConfigParser.parse`: from a share link to a `VpnProfile` whose `fullJson`
    is the proxy core's configuration. The configuration is modelled as a typed
    record with the source's sections, keys and constants; turning it into JSON
    text (`JSONObject.toString`) and splitting the link into URI components
    (`android.net.Uri.parse`) are library services, passed in as `Library`. */
module ConfigParser {
  import opened Wrappers
  import opened KotlinText
  import opened Profiles

  /** What `parse` reads from `Uri.parse(config)`. */
  datatype Uri = Uri(
    hierarchical: bool,            // false for an opaque URI such as "mailto:x"
    host: Option<string>,
    port: int,                     // -1 when the link has no port, or one that is not a number
    userInfo: Option<string>,
    query: seq<(string, string)>)  // the query's decoded name/value pairs, in link order

  /** The library calls `parse` makes that are not part of this model. */
  datatype Library = Library(parseUri: string -> Uri, serialize: XrayConfig -> string)

  // ----- The configuration record -----

  datatype InboundSettings = InboundSettings(udp: bool, auth: string)
  datatype Sniffing = Sniffing(enabled: bool, destOverride: seq<string>, routeOnly: bool)
  datatype Inbound = Inbound(
    tag: string, port: int, listen: string, protocol: string,
    settings: InboundSettings, sniffing: Sniffing)

  /** `flow` is a key that is present or absent. */
  datatype User = User(id: string, encryption: string, flow: Option<string>)
  datatype Server = Server(address: string, port: int, users: seq<User>)
  datatype RealitySettings = RealitySettings(
    fingerprint: string, serverName: string, publicKey: string, shortId: string, spiderX: string)
  datatype StreamSettings = StreamSettings(network: string, security: string, realitySettings: RealitySettings)
  datatype OutboundSettings = Vnext(vnext: seq<Server>) | Freedom(domainStrategy: string)
  datatype Outbound = Outbound(
    protocol: string, tag: string,
    settings: Option<OutboundSettings>, streamSettings: Option<StreamSettings>)

  datatype DnsServer = Plain(address: string) | Scoped(address: string, domains: seq<string>)
  datatype Dns = Dns(tag: string, hosts: seq<(string, string)>, servers: seq<DnsServer>)

  /** The one matching key of each routing rule, with its value as the source writes it. */
  datatype Condition = Port(port: string) | Protocol(protocols: seq<string>) | Domain(domains: seq<string>) | Network(network: string)
  datatype Rule = Rule(ruleType: string, condition: Condition, outboundTag: string)
  datatype Routing = Routing(domainStrategy: string, rules: seq<Rule>)

  datatype XrayConfig = XrayConfig(inbounds: seq<Inbound>, outbounds: seq<Outbound>, dns: Dns, routing: Routing)

  // ----- Constants of the source -----

  const DefaultPort: int := 443
  const ProfileName: string := "Mette Reality"
  const ProfileKind: string := "VLESS"
  const ProfileFlag: string := "\U{1F6E1}\U{FE0F}"

  /** The local SOCKS listener the tunnel feeds. */
  const SocksInbound: Inbound := Inbound(
    "socks-in", 10808, "127.0.0.1", "socks",
    InboundSettings(true, "noauth"),
    Sniffing(true, ["http", "tls", "quic"], false))

  const DirectOutbound: Outbound := Outbound("freedom", "direct", Some(Freedom("UseIP")), None)
  const BlockOutbound: Outbound := Outbound("blackhole", "block", None, None)

  const DnsPolicy: Dns := Dns(
    "dns_inbound",
    [("domain:googleapis.cn", "googleapis.com")],
    [ Plain("1.1.1.1"), Plain("8.8.8.8"),
      Scoped("https://1.1.1.1/dns-query", ["geosite:google", "geosite:facebook", "geosite:twitter"]),
      Plain("localhost") ])

  const RoutingPolicy: Routing := Routing(
    "IPIfNonMatch",
    [ Rule("field", Port("53"), "direct"),
      Rule("field", Protocol(["dns"]), "direct"),
      Rule("field", Domain(["geosite:ir", "geosite:private"]), "direct"),
      Rule("field", Network("tcp,udp"), "proxy") ])

  // ----- Reading the link -----

  /** `Uri.getQueryParameter(name)` on a hierarchical URI: the value of the
      first parameter with that name, or null. */
  function QueryParameter(query: seq<(string, string)>, name: string): (v: Option<string>)
    ensures v.None? <==> forall i :: 0 <= i < |query| ==> query[i].0 != name
    ensures v.Some? ==> exists i :: 0 <= i < |query| && query[i] == (name, v.value)
                                     && forall j :: 0 <= j < i ==> query[j].0 != name
  {
    if query == [] then None
    else if query[0].0 == name then Some(query[0].1)
    else
      var v := QueryParameter(query[1..], name);
      assert v.Some? ==> exists i :: 0 <= i < |query| && query[i] == (name, v.value)
                                     && forall j :: 0 <= j < i ==> query[j].0 != name by {
        if v.Some? {
          var i :| 0 <= i < |query| - 1 && query[1..][i] == (name, v.value)
                   && forall j :: 0 <= j < i ==> query[1..][j].0 != name;
          assert query[i + 1] == (name, v.value);
          assert forall j :: 0 <= j < i + 1 ==> query[j].0 != name by {
            forall j | 0 <= j < i + 1 ensures query[j].0 != name {
              if j > 0 { assert query[j] == query[1..][j - 1]; }
            }
          }
        }
      }
      v
  }

  function OrEmpty(s: Option<string>): string {
    s.GetOr("")
  }

  /** A query parameter of the link, "" when it is missing. */
  function Param(uri: Uri, name: string): string {
    OrEmpty(QueryParameter(uri.query, name))
  }

  /** The link's server port, 443 when the URI reports none. */
  function LinkPort(uri: Uri): (port: int)
    ensures uri.port != -1 ==> port == uri.port
    ensures uri.port == -1 ==> port == 443
  {
    if uri.port != -1 then uri.port else DefaultPort
  }

  // ----- Building the configuration -----

  /** The proxy outbound: VLESS over TCP with REALITY, aimed at the link's server. */
  function ProxyOutbound(host: string, port: int, id: string, sni: string, pbk: string, sid: string, flow: string): Outbound {
    Outbound(
      "vless", "proxy",
      Some(Vnext([Server(host, port, [User(id, "none", if flow != "" then Some(flow) else None)])])),
      Some(StreamSettings("tcp", "reality", RealitySettings("chrome", sni, pbk, sid, "/"))))
  }

  /** The configuration `parse` builds for a hierarchical URI. */
  function LinkConfig(uri: Uri): XrayConfig {
    XrayConfig(
      [SocksInbound],
      [ ProxyOutbound(OrEmpty(uri.host), LinkPort(uri), OrEmpty(uri.userInfo),
                      Param(uri, "sni"), Param(uri, "pbk"), Param(uri, "sid"), Param(uri, "flow")),
        DirectOutbound,
        BlockOutbound ],
      DnsPolicy,
      RoutingPolicy)
  }

  /** `ConfigParser.parse`. Reading a query parameter of an opaque URI throws,
      and any exception makes the result null; nothing else can fail. */
  function Parse(config: string, lib: Library): (r: Option<VpnProfile>)
    ensures r.None? <==> !lib.parseUri(config).hierarchical
    ensures r.Some? ==> r.value.rawConfig == config
    ensures r.Some? ==> r.value.ping == Unmeasured
    ensures r.Some? ==> r.value.fullJson == lib.serialize(LinkConfig(lib.parseUri(config)))
  {
    var uri := lib.parseUri(config);
    if !uri.hierarchical then None
    else
      var cfg := LinkConfig(uri);
      Some(VpnProfile(ProfileName, OrEmpty(uri.host), LinkPort(uri), ProfileKind, ProfileFlag, config,
                      fullJson := lib.serialize(cfg)))
  }

  /** Android's `Uri.isHierarchical`, which depends on the text alone: a URI
      without a scheme (no ':') is hierarchical; one with a scheme is
      hierarchical when the text after the first ':' starts with '/'. */
  predicate HierarchicalText(s: string) {
    var c := IndexOf(s, ':');
    c == |s| || (c + 1 < |s| && s[c + 1] == '/')
  }

  /** A `Library` whose URI parser classifies text the way Android's does. */
  ghost predicate AndroidUriParser(lib: Library) {
    forall s :: lib.parseUri(s).hierarchical == HierarchicalText(s)
  }

  /** Under Android's URI parser, a link that starts with a scheme followed by
      "//" always parses; `parse` returns null only for opaque URIs. */
  lemma SchemeSlashSlashParses(config: string, scheme: string, lib: Library)
    requires AndroidUriParser(lib)
    requires scheme != [] && forall i :: 0 <= i < |scheme| ==> scheme[i] != ':'
    requires scheme + "://" <= config
    ensures Parse(config, lib).Some?
  {
    var c := |scheme|;
    assert config[c] == ':' && config[c + 1] == '/';
    assert forall j :: 0 <= j < c ==> config[j] == scheme[j];
    assert IndexOf(config, ':') == c;
  }

  // ----- Reading the configuration back -----

  /** The first outbound carrying `tag`, as the proxy core looks one up. */
  function FindOutbound(outbounds: seq<Outbound>, tag: string): (o: Option<Outbound>)
    ensures o.Some? ==> o.value in outbounds && o.value.tag == tag
    ensures o.None? ==> forall i :: 0 <= i < |outbounds| ==> outbounds[i].tag != tag
  {
    if outbounds == [] then None
    else if outbounds[0].tag == tag then Some(outbounds[0])
    else FindOutbound(outbounds[1..], tag)
  }

  /** The first server of the outbound tagged "proxy", if there is one. */
  function ProxyServer(cfg: XrayConfig): Option<Server> {
    match FindOutbound(cfg.outbounds, "proxy")
    case Some(Outbound(_, _, Some(Vnext(servers)), _)) =>
      if servers != [] then Some(servers[0]) else None
    case _ => None
  }

  /** The first user of the proxy server, if there is one. */
  function ProxyUser(cfg: XrayConfig): Option<User> {
    match ProxyServer(cfg)
    case Some(server) => if server.users != [] then Some(server.users[0]) else None
    case None => None
  }

  // ----- Properties of the parser -----

  /** The profile points at the server the proxy outbound connects to: the
      link's host ("" when it has none) and its port, 443 when none is given.
      It is always labelled VLESS, whatever the link's scheme. */
  lemma ProfileMatchesProxyServer(config: string, lib: Library)
    requires lib.parseUri(config).hierarchical
    ensures var uri := lib.parseUri(config);
            var p := Parse(config, lib).value;
            var server := ProxyServer(LinkConfig(uri));
            && server.Some?
            && p.address == server.value.address == (if uri.host.Some? then uri.host.value else "")
            && p.port == server.value.port
            && (uri.port != -1 ==> p.port == uri.port)
            && (uri.port == -1 ==> p.port == 443)
            && p.kind == "VLESS"
            && FindOutbound(LinkConfig(uri).outbounds, "proxy").value.protocol == "vless"
  {
  }

  /** The proxy user carries the link's user info as its id ("" when absent),
      encryption "none", and a flow key exactly when the link's first "flow"
      parameter is present and non-empty, with that value. */
  lemma ProxyUserFromLink(uri: Uri)
    ensures var user := ProxyUser(LinkConfig(uri));
            var flow := QueryParameter(uri.query, "flow");
            && user.Some?
            && user.value.id == OrEmpty(uri.userInfo)
            && user.value.encryption == "none"
            && (user.value.flow.Some? <==> flow.Some? && flow.value != "")
            && (user.value.flow.Some? ==> user.value.flow == flow)
  {
    var flow := QueryParameter(uri.query, "flow");
    var user := ProxyUser(LinkConfig(uri));
    assert user == Some(User(OrEmpty(uri.userInfo), "none", if Param(uri, "flow") != "" then Some(Param(uri, "flow")) else None));
  }

  /** The REALITY settings take serverName, publicKey and shortId from the
      link's "sni", "pbk" and "sid" parameters; a missing one becomes "". */
  lemma RealityFromLink(uri: Uri)
    ensures var o := FindOutbound(LinkConfig(uri).outbounds, "proxy");
            && o.Some? && o.value.streamSettings.Some?
            && var st := o.value.streamSettings.value;
            && st.network == "tcp" && st.security == "reality"
            && st.realitySettings == RealitySettings(
                 "chrome",
                 OrEmpty(QueryParameter(uri.query, "sni")),
                 OrEmpty(QueryParameter(uri.query, "pbk")),
                 OrEmpty(QueryParameter(uri.query, "sid")),
                 "/")
  {
  }

  /** Everything but the proxy outbound is the same for every link: one local
      SOCKS inbound, then the direct and block outbounds in that order, and
      the same DNS and routing sections. */
  lemma ShapeIndependentOfLink(u1: Uri, u2: Uri)
    ensures var c1, c2 := LinkConfig(u1), LinkConfig(u2);
            && c1.inbounds == c2.inbounds == [SocksInbound]
            && |c1.outbounds| == |c2.outbounds| == 3
            && c1.outbounds[1..] == c2.outbounds[1..] == [DirectOutbound, BlockOutbound]
            && [c1.outbounds[0].tag, c1.outbounds[1].tag, c1.outbounds[2].tag] == ["proxy", "direct", "block"]
            && c1.dns == c2.dns == DnsPolicy
            && c1.routing == c2.routing == RoutingPolicy
  {
  }

  /** Only the last routing rule, the catch-all, sends traffic to "proxy". */
  lemma OnlyCatchAllRuleProxies(uri: Uri)
    ensures var rules := LinkConfig(uri).routing.rules;
            && |rules| == 4
            && forall i :: 0 <= i < |rules| ==> (rules[i].outboundTag == "proxy" <==> i == |rules| - 1)
  {
    assert "direct"[0] != "proxy"[0];
  }

  // ----- What the routing rules mean -----

  /** A connection as the proxy core's router sees it. */
  datatype Traffic = Traffic(
    port: int,                // destination port
    protocol: string,         // the protocol the core recognised, "" when none
    domainTags: set<string>,  // the geosite lists ("geosite:ir", ...) the destination belongs to
    network: string)          // "tcp" or "udp"

  /** Whether a rule's condition holds for a connection: the port is the
      number written, the protocol or one of the domain lists is among those
      listed, the network is in the comma-separated list. */
  predicate Matches(c: Condition, t: Traffic) {
    match c
    case Port(p) => IsDecimal(p) && DecimalValue(p) == t.port
    case Protocol(ps) => t.protocol in ps
    case Domain(ds) => exists i :: 0 <= i < |ds| && ds[i] in t.domainTags
    case Network(n) => t.network in Split(n, ',')
  }

  /** The outbound of the first rule that matches; the rules are tried in order. */
  function Route(rules: seq<Rule>, t: Traffic): (tag: Option<string>)
    ensures tag.None? <==> forall i :: 0 <= i < |rules| ==> !Matches(rules[i].condition, t)
    ensures tag.Some? ==> exists i :: 0 <= i < |rules| && Matches(rules[i].condition, t)
                                      && rules[i].outboundTag == tag.value
                                      && forall j :: 0 <= j < i ==> !Matches(rules[j].condition, t)
  {
    if rules == [] then None
    else if Matches(rules[0].condition, t) then Some(rules[0].outboundTag)
    else
      var tag := Route(rules[1..], t);
      assert tag.Some? ==> exists i :: 0 <= i < |rules| && Matches(rules[i].condition, t)
                                      && rules[i].outboundTag == tag.value
                                      && forall j :: 0 <= j < i ==> !Matches(rules[j].condition, t) by {
        if tag.Some? {
          var i :| 0 <= i < |rules| - 1 && Matches(rules[1..][i].condition, t)
                   && rules[1..][i].outboundTag == tag.value
                   && forall j :: 0 <= j < i ==> !Matches(rules[1..][j].condition, t);
          assert rules[i + 1] == rules[1..][i];
          forall j | 0 <= j < i + 1 ensures !Matches(rules[j].condition, t) {
            if j > 0 { assert rules[j] == rules[1..][j - 1]; }
          }
        }
      }
      tag
  }

  /** The port rule's "53" reads as the number 53. */
  lemma PortRuleValue()
    ensures IsDecimal("53") && DecimalValue("53") == 53
  {
    assert "53"[..1] == "5";
  }

  /** The catch-all rule's "tcp,udp" lists exactly the two networks. */
  lemma NetworkRuleValue()
    ensures Split("tcp,udp", ',') == ["tcp", "udp"]
  {
    var n := "tcp,udp";
    assert IndexOf(n, ',') == 3 by {
      assert n[0] != ',' && n[1] != ',' && n[2] != ',' && n[3] == ',';
      assert n[1..][1..][1..] == n[3..];
    }
    assert n[..3] == "tcp" && n[4..] == "udp";
    var u := "udp";
    assert IndexOf(u, ',') == 3 by {
      assert u[0] != ',' && u[1] != ',' && u[2] != ',';
      assert u[1..][1..][1..] == [];
    }
  }

  lemma DomainRuleMatches(t: Traffic)
    ensures Matches(RoutingPolicy.rules[2].condition, t) <==> "geosite:ir" in t.domainTags || "geosite:private" in t.domainTags
  {
    var ds := ["geosite:ir", "geosite:private"];
    assert RoutingPolicy.rules[2].condition == Domain(ds);
    assert ds[0] == "geosite:ir" && ds[1] == "geosite:private";
  }

  lemma NetworkRuleMatches(t: Traffic)
    ensures Matches(RoutingPolicy.rules[3].condition, t) <==> t.network == "tcp" || t.network == "udp"
  {
    var n := "tcp,udp";
    assert RoutingPolicy.rules[3].condition == Network(n);
    NetworkRuleValue();
    var parts := Split(n, ',');
    assert t.network in parts <==> t.network == parts[0] || t.network == parts[1];
  }

  /** What each of the four rules matches, in priority order: port 53; the
      DNS protocol; the Iranian and private geosite lists; any TCP or UDP. */
  lemma RuleConditions(t: Traffic)
    ensures var rules := RoutingPolicy.rules;
            && (Matches(rules[0].condition, t) <==> t.port == 53)
            && (Matches(rules[1].condition, t) <==> t.protocol == "dns")
            && (Matches(rules[2].condition, t) <==> "geosite:ir" in t.domainTags || "geosite:private" in t.domainTags)
            && (Matches(rules[3].condition, t) <==> t.network == "tcp" || t.network == "udp")
  {
    PortRuleValue();
    DomainRuleMatches(t);
    NetworkRuleMatches(t);
  }

  /** For a list of four rules, `Route` is the first of them that matches. */
  lemma {:induction false} RouteOfFour(rules: seq<Rule>, t: Traffic)
    requires |rules| == 4
    ensures Route(rules, t) ==
              if Matches(rules[0].condition, t) then Some(rules[0].outboundTag)
              else if Matches(rules[1].condition, t) then Some(rules[1].outboundTag)
              else if Matches(rules[2].condition, t) then Some(rules[2].outboundTag)
              else if Matches(rules[3].condition, t) then Some(rules[3].outboundTag)
              else None
  {
    var r1, r2, r3 := rules[1..], rules[2..], rules[3..];
    assert r1[0] == rules[1] && r1[1..] == r2;
    assert r2[0] == rules[2] && r2[1..] == r3;
    assert r3[0] == rules[3] && r3[1..] == [];
    assert Route(r3, t) == if Matches(rules[3].condition, t) then Some(rules[3].outboundTag) else None;
  }

  /** DNS traffic (port 53 or recognised as DNS) never goes through the proxy,
      even though the catch-all rule would also match it: it goes direct. */
  lemma DnsBypassesProxy(t: Traffic)
    requires t.port == 53 || t.protocol == "dns"
    ensures Route(RoutingPolicy.rules, t) == Some("direct")
  {
    var rules := RoutingPolicy.rules;
    RouteOfFour(rules, t);
    assert Matches(rules[0].condition, t) || Matches(rules[1].condition, t) by { RuleConditions(t); }
  }

  /** Destinations in the Iranian or private geosite lists go direct. */
  lemma RegionalBypassesProxy(t: Traffic)
    requires "geosite:ir" in t.domainTags || "geosite:private" in t.domainTags
    ensures Route(RoutingPolicy.rules, t) == Some("direct")
  {
    var rules := RoutingPolicy.rules;
    RouteOfFour(rules, t);
    assert Matches(rules[2].condition, t) by { RuleConditions(t); }
  }

  /** Every other TCP or UDP connection goes through the proxy; a connection
      on any other network matches no rule. */
  lemma EverythingElseProxied(t: Traffic)
    requires t.port != 53 && t.protocol != "dns"
    requires "geosite:ir" !in t.domainTags && "geosite:private" !in t.domainTags
    ensures t.network == "tcp" || t.network == "udp" ==> Route(RoutingPolicy.rules, t) == Some("proxy")
    ensures t.network != "tcp" && t.network != "udp" ==> Route(RoutingPolicy.rules, t) == None
  {
    var rules := RoutingPolicy.rules;
    RouteOfFour(rules, t);
    assert !Matches(rules[0].condition, t) && !Matches(rules[1].condition, t) && !Matches(rules[2].condition, t)
           && (Matches(rules[3].condition, t) <==> t.network == "tcp" || t.network == "udp") by { RuleConditions(t); }
  }

  /** Where the proxy core sends a connection: the outbound of the first rule
      that matches or, when none does, the first outbound the configuration
      lists (the core's default); a configuration without outbounds sends it
      nowhere. */
  function Dispatch(cfg: XrayConfig, t: Traffic): (tag: Option<string>)
    ensures var rules := cfg.routing.rules;
            (forall i :: 0 <= i < |rules| ==> !Matches(rules[i].condition, t)) ==>
              tag == (if cfg.outbounds == [] then None else Some(cfg.outbounds[0].tag))
    ensures var rules := cfg.routing.rules;
            (exists i :: 0 <= i < |rules| && Matches(rules[i].condition, t)) ==>
              exists i :: 0 <= i < |rules| && Matches(rules[i].condition, t)
                          && tag == Some(rules[i].outboundTag)
                          && forall j :: 0 <= j < i ==> !Matches(rules[j].condition, t)
  {
    match Route(cfg.routing.rules, t)
    case Some(tag) => Some(tag)
    case None => if cfg.outbounds == [] then None else Some(cfg.outbounds[0].tag)
  }

  /** Under the configuration built from any link, DNS and the Iranian and
      private geosite lists go direct and every other connection, on any
      network, goes through the proxy. */
  lemma LinkTrafficDispatch(uri: Uri, t: Traffic)
    ensures Dispatch(LinkConfig(uri), t) ==
              if t.port == 53 || t.protocol == "dns" || "geosite:ir" in t.domainTags || "geosite:private" in t.domainTags
              then Some("direct") else Some("proxy")
  {
    var cfg := LinkConfig(uri);
    assert cfg.routing == RoutingPolicy && cfg.outbounds[0].tag == "proxy";
    if t.port == 53 || t.protocol == "dns" {
      DnsBypassesProxy(t);
    } else if "geosite:ir" in t.domainTags || "geosite:private" in t.domainTags {
      RegionalBypassesProxy(t);
    } else {
      EverythingElseProxied(t);
    }
  }
}
