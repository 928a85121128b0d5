/** `VpnProfile`: one server entry of the list, shared by the link parser and
    the view-model. A Kotlin data class, so equality is structural over every
    constructor field, the latency `ping` included. */
module Profiles {

  /** The latency meaning "not measured" (and what a failed probe reports). */
  const Unmeasured: int := -1

  /** `kind` is the source's `type` field (a reserved word here). `ping` is the
      one `var`; it defaults to `Unmeasured`, `fullJson` to "". */
  datatype VpnProfile = VpnProfile(
    name: string,
    address: string,
    port: int,
    kind: string,
    flag: string,
    rawConfig: string,
    ping: int := Unmeasured,
    fullJson: string := "")

  /** The seven fields declared `val`: fixed at construction. */
  datatype Identity = Identity(
    name: string, address: string, port: int, kind: string, flag: string,
    rawConfig: string, fullJson: string)

  function IdentityOf(p: VpnProfile): Identity {
    Identity(p.name, p.address, p.port, p.kind, p.flag, p.rawConfig, p.fullJson)
  }

  /** The only write the source makes to a profile: `profile.ping = ms`. */
  function WithPing(p: VpnProfile, ms: int): (q: VpnProfile)
    ensures q.ping == ms
    ensures IdentityOf(q) == IdentityOf(p)
  {
    p.(ping := ms)
  }

  /** A profile built without a latency or a configuration document starts
      unmeasured and with an empty document. */
  lemma DefaultsOfNewProfile(name: string, address: string, port: int, kind: string, flag: string, rawConfig: string)
    ensures VpnProfile(name, address, port, kind, flag, rawConfig).ping == -1
    ensures VpnProfile(name, address, port, kind, flag, rawConfig).fullJson == ""
    ensures VpnProfile(name, address, port, kind, flag, rawConfig, fullJson := "{}").ping == -1
  {
  }

  /** Writing the latency changes nothing else, and a later write wins. */
  lemma PingIsTheOnlyMutableField(p: VpnProfile, a: int, b: int)
    ensures IdentityOf(WithPing(p, a)) == IdentityOf(p)
    ensures WithPing(WithPing(p, a), b) == WithPing(p, b)
    ensures WithPing(p, p.ping) == p
  {
  }

  /** Equality is structural: two profiles are equal exactly when their
      immutable fields and their latencies agree. Hence the same server
      measured twice with different results gives two different profiles. */
  lemma EqualityIsStructural(p: VpnProfile, q: VpnProfile)
    ensures p == q <==> IdentityOf(p) == IdentityOf(q) && p.ping == q.ping
    ensures IdentityOf(p) == IdentityOf(q) && p.ping != q.ping ==> p != q
  {
  }
}
