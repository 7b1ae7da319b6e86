/**
 The kill switch: what the routing half of Apply leaves behind, whichever of its
 commands failed. A packet marked for an upstream leaves by that upstream's
 interface or not at all.
 */
module KillSwitch {
  import opened Wrappers
  import opened UpstreamConfig
  import opened Netfilter

  /** The routing half of Apply: sweep the band, then rebuild it from the interface-mode upstreams. */
  function Rerouted(k: Kernel, ups: seq<Upstream>, ok: IpCommand -> bool): Kernel {
    ExecAll(ExecAll(k, TeardownFrom(0), ok), RouteCommands(ups), ok)
  }

  /** Every rule of the band sends mark t to table t: all that ovcp ever adds, so also all that a
      failed sweep can leave behind. */
  ghost predicate Canonical(k: Kernel) {
    forall prio :: prio in k.rules ==>
      var t := TABLE_BASE + (prio - RULE_PRIO_BASE);
      InBand(t) && k.rules[prio] == IpRule(t, t)
  }

  predicate RuleShape(c: IpCommand) {
    c.AddFwmarkRule? ==> InBand(c.table) && c.fwmark == c.table && c.prio == RulePrio(c.table)
  }

  lemma {:induction false} CanonicalKept(k: Kernel, cs: seq<IpCommand>, ok: IpCommand -> bool)
    requires Canonical(k) && forall i :: 0 <= i < |cs| ==> RuleShape(cs[i])
    ensures Canonical(ExecAll(k, cs, ok))
    decreases |cs|
  {
    if cs != [] {
      CanonicalKept(if ok(cs[0]) then Exec(k, cs[0]) else k, cs[1..], ok);
    }
  }

  lemma {:induction false} TeardownShape(i: nat)
    requires i <= MAX_UPSTREAMS
    ensures forall n :: 0 <= n < |TeardownFrom(i)| ==> RuleShape(TeardownFrom(i)[n])
    decreases MAX_UPSTREAMS - i
  {
    if i < MAX_UPSTREAMS {
      TeardownShape(i + 1);
    }
  }

  lemma {:induction false} RouteShape(ups: seq<Upstream>)
    requires forall i :: 0 <= i < |ups| ==> InBand(ups[i].table)
    ensures forall n :: 0 <= n < |RouteCommands(ups)| ==> RuleShape(RouteCommands(ups)[n])
  {
    if ups != [] {
      RouteShape(ups[1..]);
    }
  }

  lemma ReroutedCanonical(host: Host, k: Kernel, c: Config, ok: IpCommand -> bool)
    requires Valid(host, c) && Canonical(k)
    ensures Canonical(Rerouted(k, c.upstreams, ok))
  {
    TeardownShape(0);
    RouteShape(c.upstreams);
    CanonicalKept(k, TeardownFrom(0), ok);
    CanonicalKept(ExecAll(k, TeardownFrom(0), ok), RouteCommands(c.upstreams), ok);
  }

  /** In a canonical band a mark is looked up in its own table and nowhere else. */
  lemma {:induction false} OwnTableOnly(k: Kernel, mark: int, up: string -> bool, prio: int)
    requires Canonical(k) && InBand(mark)
    requires RULE_PRIO_BASE <= prio <= RULE_PRIO_BASE + MAX_UPSTREAMS
    ensures FwmarkRoute(k, mark, up, prio) ==
      if prio <= RulePrio(mark) && RulePrio(mark) in k.rules then TableRoute(k, mark, up) else None
    decreases RULE_PRIO_BASE + MAX_UPSTREAMS - prio
  {
    if prio < RULE_PRIO_BASE + MAX_UPSTREAMS {
      OwnTableOnly(k, mark, up, prio + 1);
    }
  }

  /** The sweep empties exactly the tables whose flush succeeded. */
  lemma {:induction false} TeardownEffect(k: Kernel, i: nat, table: int, ok: IpCommand -> bool)
    requires i <= MAX_UPSTREAMS && InBand(table)
    ensures Routes(ExecAll(k, TeardownFrom(i), ok), table) ==
      if table >= TABLE_BASE + i && ok(FlushTable(table)) then map[] else Routes(k, table)
    decreases MAX_UPSTREAMS - i
  {
    if i < MAX_UPSTREAMS {
      var t := TABLE_BASE + i;
      var head := [DelRule(RulePrio(t)), FlushTable(t)];
      SweepSlot(k, t, table, ok);
      ExecAllConcat(k, head, TeardownFrom(i + 1), ok);
      TeardownEffect(ExecAll(k, head, ok), i + 1, table, ok);
    }
  }

  /** And it removes exactly the rules of the band whose delete succeeded. */
  lemma {:induction false} TeardownRules(k: Kernel, i: nat, prio: int, ok: IpCommand -> bool)
    requires i <= MAX_UPSTREAMS
    ensures var swept := ExecAll(k, TeardownFrom(i), ok);
      && (prio in swept.rules <==>
            prio in k.rules && !(RULE_PRIO_BASE + i <= prio < RULE_PRIO_BASE + MAX_UPSTREAMS && ok(DelRule(prio))))
      && (prio in swept.rules ==> swept.rules[prio] == k.rules[prio])
    decreases MAX_UPSTREAMS - i
  {
    if i < MAX_UPSTREAMS {
      var t := TABLE_BASE + i;
      var head := [DelRule(RulePrio(t)), FlushTable(t)];
      SweepSlotRule(k, t, ok);
      ExecAllConcat(k, head, TeardownFrom(i + 1), ok);
      TeardownRules(ExecAll(k, head, ok), i + 1, prio, ok);
    }
  }

  lemma SweepSlotRule(k: Kernel, t: int, ok: IpCommand -> bool)
    ensures ExecAll(k, [DelRule(RulePrio(t)), FlushTable(t)], ok).rules ==
      if ok(DelRule(RulePrio(t))) then k.rules - {RulePrio(t)} else k.rules
  {
    var head := [DelRule(RulePrio(t)), FlushTable(t)];
    var k1 := if ok(head[0]) then Exec(k, head[0]) else k;
    var k2 := if ok(head[1]) then Exec(k1, head[1]) else k1;
    assert ExecAll(k, head, ok) == ExecAll(k1, head[1..], ok);
    assert ExecAll(k1, head[1..], ok) == ExecAll(k2, head[1..][1..], ok);
  }

  lemma SweepSlot(k: Kernel, t: int, table: int, ok: IpCommand -> bool)
    ensures Routes(ExecAll(k, [DelRule(RulePrio(t)), FlushTable(t)], ok), table) ==
      if table == t && ok(FlushTable(t)) then map[] else Routes(k, table)
  {
    var head := [DelRule(RulePrio(t)), FlushTable(t)];
    var k1 := if ok(head[0]) then Exec(k, head[0]) else k;
    var k2 := if ok(head[1]) then Exec(k1, head[1]) else k1;
    assert ExecAll(k, head, ok) == ExecAll(k1, head[1..], ok);
    assert ExecAll(k1, head[1..], ok) == ExecAll(k2, head[1..][1..], ok);
  }

  /** What the three commands of one upstream make of its own table. */
  function OwnRoutes(before: map<int, Route>, u: Upstream, ok: IpCommand -> bool): map<int, Route> {
    var primary := if ok(RouteArgs(u)[0]) then before[0 := ViaDev(u.iface, u.gateway)] else before;
    if ok(RouteArgs(u)[1]) then primary[FALLBACK_METRIC := Unreachable] else primary
  }

  lemma RunRouteArgs(k: Kernel, u: Upstream, ok: IpCommand -> bool)
    ensures var k' := ExecAll(k, RouteArgs(u), ok);
      && Routes(k', u.table) == OwnRoutes(Routes(k, u.table), u, ok)
      && (forall t :: t != u.table ==> Routes(k', t) == Routes(k, t))
      && (forall prio :: prio in k'.rules <==> prio in k.rules || (ok(RouteArgs(u)[2]) && prio == RulePrio(u.table)))
  {
    var cs := RouteArgs(u);
    var k1 := if ok(cs[0]) then Exec(k, cs[0]) else k;
    var k2 := if ok(cs[1]) then Exec(k1, cs[1]) else k1;
    var k3 := if ok(cs[2]) then Exec(k2, cs[2]) else k2;
    assert ExecAll(k, cs, ok) == k3 by {
      assert ExecAll(k, cs, ok) == ExecAll(k1, cs[1..], ok);
      assert ExecAll(k1, cs[1..], ok) == ExecAll(k2, cs[1..][1..], ok);
      assert ExecAll(k2, cs[1..][1..], ok) == ExecAll(k3, cs[1..][1..][1..], ok);
    }
  }

  /** The commands of the first upstream, then those of the others. */
  lemma RunHead(k: Kernel, ups: seq<Upstream>, ok: IpCommand -> bool) returns (k1: Kernel)
    requires ups != []
    ensures ExecAll(k, RouteCommands(ups), ok) == ExecAll(k1, RouteCommands(ups[1..]), ok)
    ensures var u := ups[0];
      if u.IsSOCKS() then k1 == k
      else
        && Routes(k1, u.table) == OwnRoutes(Routes(k, u.table), u, ok)
        && (forall t :: t != u.table ==> Routes(k1, t) == Routes(k, t))
        && (forall prio :: prio in k1.rules <==> prio in k.rules || (ok(RouteArgs(u)[2]) && prio == RulePrio(u.table)))
  {
    var head := if ups[0].IsSOCKS() then [] else RouteArgs(ups[0]);
    k1 := ExecAll(k, head, ok);
    ExecAllConcat(k, head, RouteCommands(ups[1..]), ok);
    RunRouteArgs(k, ups[0], ok);
  }

  lemma OthersDiffer(ups: seq<Upstream>)
    requires DistinctTables(ups) && ups != []
    ensures forall u :: u in ups[1..] ==> u.table != ups[0].table
  {
    forall u | u in ups[1..] ensures u.table != ups[0].table {
      var i :| 0 <= i < |ups[1..]| && ups[1..][i] == u;
      assert ups[i + 1] == u;
    }
  }

  /** Upstreams do not disturb each other's tables. */
  lemma {:induction false} RebuildEffect(k: Kernel, ups: seq<Upstream>, table: int, ok: IpCommand -> bool)
    requires DistinctTables(ups)
    ensures var k' := ExecAll(k, RouteCommands(ups), ok);
      && (forall u :: u in ups && u.table == table && !u.IsSOCKS() ==>
            && Routes(k', table) == OwnRoutes(Routes(k, table), u, ok)
            && (ok(RouteArgs(u)[2]) ==> RulePrio(table) in k'.rules))
      && ((forall u :: u in ups && u.table == table ==> u.IsSOCKS()) ==>
            && Routes(k', table) == Routes(k, table)
            && (RulePrio(table) in k'.rules <==> RulePrio(table) in k.rules))
    decreases |ups|
  {
    if ups != [] {
      var u0, rest := ups[0], ups[1..];
      var k1 := RunHead(k, ups, ok);
      RebuildEffect(k1, rest, table, ok);
      assert forall u :: u in ups <==> u == u0 || u in rest;
      OthersDiffer(ups);
    }
  }

  predicate Confined(r: Option<Route>, u: Upstream) {
    r.Some? && (r.value.ViaDev? ==> r.value.dev == u.iface)
  }

  /** A live primary route through someone else's interface, left in the upstream's table slot. */
  predicate ForeignPrimary(k: Kernel, u: Upstream, up: string -> bool) {
    var rs := Routes(k, u.table);
    0 in rs && rs[0].ViaDev? && rs[0].dev != u.iface && up(rs[0].dev)
  }

  /** What the whole rebuild leaves in the slot of an upstream. */
  lemma SlotRoutes(host: Host, k: Kernel, c: Config, ok: IpCommand -> bool, u: Upstream)
    requires Valid(host, c) && u in c.upstreams && !u.IsSOCKS()
    ensures var k' := Rerouted(k, c.upstreams, ok);
      && InBand(u.table)
      && Routes(k', u.table) == OwnRoutes(if ok(FlushTable(u.table)) then map[] else Routes(k, u.table), u, ok)
      && (ok(RouteArgs(u)[2]) ==> RulePrio(u.table) in k'.rules)
  {
    var i :| 0 <= i < |c.upstreams| && c.upstreams[i] == u;
    TeardownEffect(k, 0, u.table, ok);
    RebuildEffect(ExecAll(k, TeardownFrom(0), ok), c.upstreams, u.table, ok);
  }

  /** Once the fallback route and the rule are in, the upstream's mark is confined to its interface,
      whether or not the primary route went in and whichever interfaces exist. The one way out is a
      foreign route of the slot's previous owner that both the flush and the primary failed to replace. */
  lemma KillSwitchHolds(host: Host, k: Kernel, c: Config, ok: IpCommand -> bool, u: Upstream, up: string -> bool)
    requires Valid(host, c) && Canonical(k)
    requires u in c.upstreams && !u.IsSOCKS()
    requires ok(RouteArgs(u)[1]) && ok(RouteArgs(u)[2])
    ensures Confined(FwmarkRoute(Rerouted(k, c.upstreams, ok), u.table, up, RULE_PRIO_BASE), u)
      <==> ok(FlushTable(u.table)) || ok(RouteArgs(u)[0]) || !ForeignPrimary(k, u, up)
  {
    SlotRoutes(host, k, c, ok, u);
    ReroutedCanonical(host, k, c, ok);
    OwnTableOnly(Rerouted(k, c.upstreams, ok), u.table, up, RULE_PRIO_BASE);
  }

  /** A slot without an upstream keeps its routes if its flush fails. */
  lemma LeftoverStays(host: Host, k: Kernel, c: Config, ok: IpCommand -> bool, table: int)
    requires Valid(host, c) && InBand(table) && (forall u :: u in c.upstreams ==> u.table != table)
    requires !ok(FlushTable(table))
    ensures Routes(Rerouted(k, c.upstreams, ok), table) == Routes(k, table)
  {
    TeardownEffect(k, 0, table, ok);
    RebuildEffect(ExecAll(k, TeardownFrom(0), ok), c.upstreams, table, ok);
  }

  /** v is added, deleted, and u added in its slot, each time with an Apply. */
  ghost predicate SlotReused(host: Host, v: Upstream, u: Upstream, first: Config, none: Config, last: Config) {
    && WithAdded(host, EMPTY_CONFIG, v.(table := 0)) == Ok((first, v))
    && Without(first, v.id).0 == none
    && WithAdded(host, none, u.(table := 0)) == Ok((last, u))
  }

  lemma ReuseFacts(host: Host, v: Upstream, u: Upstream, first: Config, none: Config, last: Config)
    requires SlotReused(host, v, u, first, none, last)
    ensures Valid(host, first) && Valid(host, none) && Valid(host, last)
    ensures first.upstreams == [v] && none.upstreams == [] && last.upstreams == [u]
    ensures u.table == v.table == TABLE_BASE
  {
    WithAddedExact(host, EMPTY_CONFIG, v.(table := 0));
    WithoutExact(host, first, v.id);
    WithAddedExact(host, none, u.(table := 0));
  }

  /** Such a leak: v's primary once went in, then the flush of the slot fails twice, and so does u's primary.
      With its fallback and rule in, u's traffic leaves by v's interface. */
  lemma LeftoverRouteLeaks(host: Host, k: Kernel, v: Upstream, u: Upstream, first: Config, none: Config, last: Config,
                           ok1: IpCommand -> bool, ok: IpCommand -> bool, up: string -> bool)
    requires Canonical(k) && SlotReused(host, v, u, first, none, last) && !v.IsSOCKS() && !u.IsSOCKS()
    requires v.iface != u.iface && up(v.iface) && ok1(RouteArgs(v)[0])
    requires !ok(FlushTable(u.table)) && !ok(RouteArgs(u)[0]) && ok(RouteArgs(u)[1]) && ok(RouteArgs(u)[2])
    ensures var k1 := Rerouted(k, first.upstreams, ok1);
      var k3 := Rerouted(Rerouted(k1, none.upstreams, ok), last.upstreams, ok);
      && FwmarkRoute(k3, u.table, up, RULE_PRIO_BASE) == Some(ViaDev(v.iface, v.gateway))
      && !Confined(FwmarkRoute(k3, u.table, up, RULE_PRIO_BASE), u)
  {
    var k2 := Rerouted(Rerouted(k, first.upstreams, ok1), none.upstreams, ok);
    ReuseFacts(host, v, u, first, none, last);
    LeftBehind(host, k, v, first, none, ok1, ok);
    LeftoverDecides(host, k2, last, ok, u, up);
  }

  lemma LeftoverDecides(host: Host, k: Kernel, c: Config, ok: IpCommand -> bool, u: Upstream, up: string -> bool)
    requires Valid(host, c) && Canonical(k) && u in c.upstreams && !u.IsSOCKS() && ForeignPrimary(k, u, up)
    requires !ok(FlushTable(u.table)) && !ok(RouteArgs(u)[0]) && ok(RouteArgs(u)[1]) && ok(RouteArgs(u)[2])
    ensures FwmarkRoute(Rerouted(k, c.upstreams, ok), u.table, up, RULE_PRIO_BASE) == Some(Routes(k, u.table)[0])
  {
    ReroutedCanonical(host, k, c, ok);
    SlotRoutes(host, k, c, ok, u);
    OwnTableOnly(Rerouted(k, c.upstreams, ok), u.table, up, RULE_PRIO_BASE);
  }

  lemma TwiceCanonical(host: Host, k: Kernel, c: Config, d: Config, ok1: IpCommand -> bool, ok: IpCommand -> bool)
    requires Valid(host, c) && Valid(host, d) && Canonical(k)
    ensures Canonical(Rerouted(Rerouted(k, c.upstreams, ok1), d.upstreams, ok))
  {
    ReroutedCanonical(host, k, c, ok1);
    ReroutedCanonical(host, Rerouted(k, c.upstreams, ok1), d, ok);
  }

  lemma LeftBehind(host: Host, k: Kernel, v: Upstream, first: Config, none: Config,
                   ok1: IpCommand -> bool, ok: IpCommand -> bool)
    requires Canonical(k) && !v.IsSOCKS() && ok1(RouteArgs(v)[0]) && !ok(FlushTable(v.table))
    requires Valid(host, first) && Valid(host, none) && v in first.upstreams && none.upstreams == []
    ensures var k2 := Rerouted(Rerouted(k, first.upstreams, ok1), none.upstreams, ok);
      Canonical(k2) && 0 in Routes(k2, v.table) && Routes(k2, v.table)[0] == ViaDev(v.iface, v.gateway)
  {
    var k1 := Rerouted(k, first.upstreams, ok1);
    TwiceCanonical(host, k, first, none, ok1, ok);
    SlotRoutes(host, k, first, ok1, v);
    LeftoverStays(host, k1, none, ok, v.table);
  }

  /** The interface does carry the traffic when its primary route went in and it exists. */
  lemma PrimaryCarries(host: Host, k: Kernel, c: Config, ok: IpCommand -> bool, u: Upstream, up: string -> bool)
    requires Valid(host, c) && Canonical(k)
    requires u in c.upstreams && !u.IsSOCKS()
    requires ok(RouteArgs(u)[0]) && ok(RouteArgs(u)[1]) && ok(RouteArgs(u)[2])
    ensures FwmarkRoute(Rerouted(k, c.upstreams, ok), u.table, up, RULE_PRIO_BASE)
      == Some(if up(u.iface) then ViaDev(u.iface, u.gateway) else Unreachable)
  {
    SlotRoutes(host, k, c, ok, u);
    ReroutedCanonical(host, k, c, ok);
    OwnTableOnly(Rerouted(k, c.upstreams, ok), u.table, up, RULE_PRIO_BASE);
  }
}
