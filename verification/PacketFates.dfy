/**
 What becomes of a packet that carries a mark, given the compiled ruleset and the
 routing band that Apply leaves: its relay, its interface, nothing, or the host's
 default route.
 */
module PacketFates {
  import opened Wrappers
  import opened UpstreamConfig
  import opened Netfilter
  import opened KillSwitch
  import opened Egress
  import opened TrackerAgreement

  lemma ApplyCanonical(host: Host, s: State, c: Config, o: Outcomes, order: seq<string>)
    requires Valid(host, c) && IsOrder(order, s) && AddressesOk(host, s) && NftOk(s, o, order) && Canonical(s.kernel)
    ensures Canonical(Apply(host, s, c, o, order).0.kernel)
  {
    AppliedBand(host, s, c, o, order);
    ReroutedCanonical(host, s.kernel, c, o.ip);
  }

  lemma AppliedBand(host: Host, s: State, c: Config, o: Outcomes, order: seq<string>)
    requires Valid(host, c) && IsOrder(order, s) && AddressesOk(host, s) && NftOk(s, o, order)
    ensures var k, k' := Apply(host, s, c, o, order).0.kernel, Rerouted(s.kernel, c.upstreams, o.ip);
      k.routes == k'.routes && k.rules == k'.rules
  {
    ApplyExact(host, s, c, o, order);
    RebuiltRoutes(s.kernel, c, o);
  }

  /** Deleting the nft table in between does not change what the ip commands build. */
  lemma RebuiltRoutes(k: Kernel, c: Config, o: Outcomes)
    ensures Rebuilt(k, c, o).routes == Rerouted(k, c.upstreams, o.ip).routes
    ensures Rebuilt(k, c, o).rules == Rerouted(k, c.upstreams, o.ip).rules
  {
    var swept := ExecAll(k, TeardownFrom(0), o.ip);
    ExecIgnoresNft(swept, if o.deleteTable then swept.(nft := None) else swept, RouteCommands(c.upstreams), o.ip);
  }

  lemma {:induction false} ExecIgnoresNft(k: Kernel, k': Kernel, cs: seq<IpCommand>, ok: IpCommand -> bool)
    requires k.routes == k'.routes && k.rules == k'.rules
    ensures ExecAll(k, cs, ok).routes == ExecAll(k', cs, ok).routes
    ensures ExecAll(k, cs, ok).rules == ExecAll(k', cs, ok).rules
    decreases |cs|
  {
    if cs != [] {
      ExecIgnoresNft(if ok(cs[0]) then Exec(k, cs[0]) else k, if ok(cs[0]) then Exec(k', cs[0]) else k', cs[1..], ok);
    }
  }

  function MarkFor(c: Config, id: string): int {
    match Find(c, id)
    case Some(u) => u.table
    case None => 0
  }

  /** u's table slot holds its fallback, its rule is in, and no foreign route is left in the slot. */
  predicate Guarded(k: Kernel, u: Upstream) {
    var rs := Routes(k, u.table);
    && RulePrio(u.table) in k.rules
    && FALLBACK_METRIC in rs && rs[FALLBACK_METRIC] == Unreachable
    && (0 in rs ==> rs[0] == ViaDev(u.iface, u.gateway))
  }

  /** The interface-mode upstreams whose flush, fallback and rule commands succeeded in an Apply. */
  ghost function GuardedBy(c: Config, o: Outcomes): set<Upstream> {
    set u | u in c.upstreams && !u.IsSOCKS()
            && o.ip(FlushTable(u.table)) && o.ip(RouteArgs(u)[1]) && o.ip(RouteArgs(u)[2])
  }

  /** Apply guards these, with or without their primary routes. */
  lemma ApplyGuards(host: Host, s: State, c: Config, o: Outcomes, order: seq<string>)
    requires Valid(host, c) && IsOrder(order, s) && AddressesOk(host, s) && NftOk(s, o, order)
    ensures forall u :: u in GuardedBy(c, o) ==> Guarded(Apply(host, s, c, o, order).0.kernel, u)
  {
    AppliedBand(host, s, c, o, order);
    forall u | u in GuardedBy(c, o) ensures Guarded(Apply(host, s, c, o, order).0.kernel, u) {
      ReroutedGuards(host, s.kernel, c, o, u);
    }
  }

  lemma ReroutedGuards(host: Host, k: Kernel, c: Config, o: Outcomes, u: Upstream)
    requires Valid(host, c) && u in GuardedBy(c, o)
    ensures Guarded(Rerouted(k, c.upstreams, o.ip), u)
  {
    SlotRoutes(host, k, c, o.ip, u);
  }

  lemma {:induction false} UnmarkedHasNoRoute(k: Kernel, up: string -> bool, prio: int)
    requires Canonical(k) && RULE_PRIO_BASE <= prio <= RULE_PRIO_BASE + MAX_UPSTREAMS
    ensures FwmarkRoute(k, 0, up, prio).None?
    decreases RULE_PRIO_BASE + MAX_UPSTREAMS - prio
  {
    if prio < RULE_PRIO_BASE + MAX_UPSTREAMS {
      UnmarkedHasNoRoute(k, up, prio + 1);
    }
  }

  /** A routed packet is masqueraded out its upstream's interface exactly when that existed at Apply. */
  lemma MasqueradedIffUp(host: Host, c: Config, u: Upstream, p: Packet)
    requires Valid(host, c) && u in c.upstreams && !u.IsSOCKS()
    ensures Natted(RulesetOf(host, c).post, p, u.table, u.iface) <==> host.ifaceExists(u.iface)
  {
    var ms, post := Masquerades(host, c.upstreams), RulesetOf(host, c).post;
    MasqueradesMeanUpstreams(host, c.upstreams);
    assert forall i :: 0 <= i < |ms| ==> post[i] == ms[i] && ms[i] in ms;
    assert post[|ms|] == TUNNEL_NAT;
    var n :| 0 <= n < |c.upstreams| && c.upstreams[n] == u;
    assert InBand(u.table);
    if host.ifaceExists(u.iface) {
      var r := Masquerade(None, u.table, Some(u.iface));
      assert r in ms;
      var i :| 0 <= i < |ms| && ms[i] == r;
      assert post[i].mark == u.table;
    }
  }

  /** What should become of the first packet of a client that resolves to upstream id. */
  predicate AsConfigured(host: Host, guarded: set<Upstream>, c: Config, id: string, tcp: bool, fate: Fate) {
    match Find(c, id)
    case None => fate == ByHostDefault(true)
    case Some(u) =>
      if u.IsSOCKS() then tcp ==> fate == Relayed(u.SocksPort())
      else u in guarded ==> fate == Dropped || fate == Sent(u.iface, host.ifaceExists(u.iface))
  }

  lemma UnmarkedFate(host: Host, k: Kernel, c: Config, p: Packet, up: string -> bool, hostDev: string)
    requires Valid(host, c) && Canonical(k) && k.nft.Some? && Compiled(host, c, k.nft.value)
    requires p.iif == TUN_DEV && MarkOf(k, p) == 0
    ensures FateOf(k, p, up, hostDev) == ByHostDefault(true)
  {
    var post := k.nft.value.post;
    RedirectMeansUpstream(c.upstreams, 0);
    forall u | u in c.upstreams ensures InBand(u.table) {
      var n :| 0 <= n < |c.upstreams| && c.upstreams[n] == u;
    }
    UnmarkedHasNoRoute(k, up, RULE_PRIO_BASE);
    assert post[|post| - 1] == TUNNEL_NAT;
  }

  /** In a valid configuration the redirect rules act on mark t only for the SOCKS upstream of table t. */
  lemma OwnRelayOnly(host: Host, c: Config, u: Upstream)
    requires Valid(host, c) && u in c.upstreams
    ensures FirstRedirect(RulesetOf(host, c).redirect, u.table) == if u.IsSOCKS() then Some(u.SocksPort()) else None
  {
    RedirectMeansUpstream(c.upstreams, u.table);
    var n :| 0 <= n < |c.upstreams| && c.upstreams[n] == u;
    forall v | v in c.upstreams && v.table == u.table ensures v == u {
      var m :| 0 <= m < |c.upstreams| && c.upstreams[m] == v;
    }
  }

  lemma MarkedFate(host: Host, k: Kernel, c: Config, u: Upstream, p: Packet, up: string -> bool, hostDev: string)
    requires Valid(host, c) && Canonical(k) && k.nft.Some? && Compiled(host, c, k.nft.value)
    requires u in c.upstreams && p.iif == TUN_DEV && MarkOf(k, p) == u.table
    ensures var fate := FateOf(k, p, up, hostDev);
      if u.IsSOCKS() then p.tcp ==> fate == Relayed(u.SocksPort())
      else Guarded(k, u) ==> fate == Dropped || fate == Sent(u.iface, host.ifaceExists(u.iface))
  {
    OwnRelayOnly(host, c, u);
    if !u.IsSOCKS() {
      OwnTableOnly(k, u.table, up, RULE_PRIO_BASE);
      MasqueradedIffUp(host, c, u, p);
    }
  }
}
