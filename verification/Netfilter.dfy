/**
 The kernel as ovcp programs it: one nft table, the policy-routing tables and
 the fwmark rules, what each command does to them, and what they do to a
 packet. Beside it, the two compilers of internal/upstream/upstream.go:
 nftRuleset and routeArgs.
 */
module Netfilter {
  import opened Wrappers
  import opened UpstreamConfig
  import opened Seqs

  const TUN_DEV := "ovcp0"
  const FALLBACK_METRIC := 999

  // ----- kernel state -----

  /** prerouting: iifname, an optional ip saddr, then "meta mark set". */
  datatype MarkRule = MarkRule(iif: string, saddr: Option<nat>, mark: int)

  /** nat prerouting: "meta mark m meta l4proto tcp redirect to :port". */
  datatype Redirect = Redirect(mark: int, port: int)

  /** nat postrouting: masquerade on mark and optional interfaces. */
  datatype NatRule = Masquerade(iif: Option<string>, mark: int, oif: Option<string>)

  datatype Entry = Entry(handle: nat, rule: MarkRule)

  /** A live nft table; next is its handle counter, which starts over with every new table. */
  datatype Table = Table(pre: seq<Entry>, redirect: seq<Redirect>, post: seq<NatRule>, next: nat)

  datatype Route = ViaDev(dev: string, gateway: string) | Unreachable

  datatype IpRule = IpRule(fwmark: int, table: int)

  /** routes: table -> metric -> default route; rules: priority -> rule, the ovcp band only. */
  datatype Kernel = Kernel(nft: Option<Table>, routes: map<int, map<int, Route>>, rules: map<int, IpRule>)

  // ----- ip(8) commands -----

  datatype IpCommand =
    | DelRule(prio: int)
    | FlushTable(table: int)
    | ReplaceDefault(dev: string, gateway: string, table: int)
    | ReplaceUnreachable(table: int, metric: int)
    | AddFwmarkRule(fwmark: int, table: int, prio: int)

  function Routes(k: Kernel, table: int): map<int, Route> {
    if table in k.routes then k.routes[table] else map[]
  }

  function Exec(k: Kernel, c: IpCommand): Kernel {
    match c
    case DelRule(prio) => k.(rules := k.rules - {prio})
    case FlushTable(table) => k.(routes := k.routes - {table})
    case ReplaceDefault(dev, gateway, table) =>
      k.(routes := k.routes[table := Routes(k, table)[0 := ViaDev(dev, gateway)]])
    case ReplaceUnreachable(table, metric) =>
      k.(routes := k.routes[table := Routes(k, table)[metric := Unreachable]])
    case AddFwmarkRule(fwmark, table, prio) => k.(rules := k.rules[prio := IpRule(fwmark, table)])
  }

  /** Runs commands in order; ok says which of them succeed, a failed one changes nothing. */
  function ExecAll(k: Kernel, cs: seq<IpCommand>, ok: IpCommand -> bool): Kernel
    decreases |cs|
  {
    if cs == [] then k
    else ExecAll(if ok(cs[0]) then Exec(k, cs[0]) else k, cs[1..], ok)
  }

  lemma {:induction false} ExecAllConcat(k: Kernel, a: seq<IpCommand>, b: seq<IpCommand>, ok: IpCommand -> bool)
    ensures ExecAll(k, a + b, ok) == ExecAll(ExecAll(k, a, ok), b, ok)
    decreases |a|
  {
    if a == [] {
      assert a + b == b;
    } else {
      assert (a + b)[1..] == a[1..] + b;
      ExecAllConcat(if ok(a[0]) then Exec(k, a[0]) else k, a[1..], b, ok);
    }
  }

  // ----- teardownArgs and routeArgs -----

  /** The sweep of the band from slot i on. */
  function TeardownFrom(i: nat): seq<IpCommand>
    requires i <= MAX_UPSTREAMS
    decreases MAX_UPSTREAMS - i
  {
    if i == MAX_UPSTREAMS then []
    else [DelRule(RulePrio(TABLE_BASE + i)), FlushTable(TABLE_BASE + i)] + TeardownFrom(i + 1)
  }

  method TeardownArgs() returns (cs: seq<IpCommand>)
    ensures cs == TeardownFrom(0)
  {
    cs := [];
    for i := 0 to MAX_UPSTREAMS
      invariant TeardownFrom(0) == cs + TeardownFrom(i)
    {
      var table := TABLE_BASE + i;
      cs := cs + [DelRule(RulePrio(table)), FlushTable(table)];
    }
  }

  function RouteArgs(u: Upstream): seq<IpCommand> {
    [ReplaceDefault(u.iface, u.gateway, u.table),
     ReplaceUnreachable(u.table, FALLBACK_METRIC),
     AddFwmarkRule(u.table, u.table, RulePrio(u.table))]
  }

  function RouteCommands(ups: seq<Upstream>): seq<IpCommand> {
    if ups == [] then []
    else (if ups[0].IsSOCKS() then [] else RouteArgs(ups[0])) + RouteCommands(ups[1..])
  }

  // ----- nftRuleset -----

  datatype Ruleset = Ruleset(pre: seq<MarkRule>, redirect: seq<Redirect>, post: seq<NatRule>)

  function DefaultMark(c: Config): seq<MarkRule> {
    var u := Find(c, Resolve(c, ""));
    if u.Some? then [MarkRule(TUN_DEV, None, u.value.table)] else []
  }

  function Redirects(ups: seq<Upstream>): seq<Redirect> {
    if ups == [] then []
    else RedirectOf(ups[0]) + Redirects(ups[1..])
  }

  function RedirectOf(u: Upstream): seq<Redirect> {
    if u.IsSOCKS() then [Redirect(u.table, u.SocksPort())] else []
  }

  function MasqueradeOf(host: Host, u: Upstream): seq<NatRule> {
    if u.IsSOCKS() || !host.ifaceExists(u.iface) then [] else [Masquerade(None, u.table, Some(u.iface))]
  }

  function Masquerades(host: Host, ups: seq<Upstream>): seq<NatRule> {
    if ups == [] then []
    else MasqueradeOf(host, ups[0]) + Masquerades(host, ups[1..])
  }

  const TUNNEL_NAT := Masquerade(Some(TUN_DEV), 0, None)

  function RulesetOf(host: Host, c: Config): Ruleset {
    Ruleset(DefaultMark(c), Redirects(c.upstreams), Masquerades(host, c.upstreams) + [TUNNEL_NAT])
  }

  method RedirectRules(ups: seq<Upstream>) returns (redirect: seq<Redirect>)
    ensures redirect == Redirects(ups)
  {
    redirect := [];
    for n := 0 to |ups|
      invariant Redirects(ups) == redirect + Redirects(ups[n..])
    {
      Suffix(ups, n);
      Associate(redirect, RedirectOf(ups[n]), Redirects(ups[n + 1..]));
      if ups[n].IsSOCKS() {
        redirect := redirect + [Redirect(ups[n].table, ups[n].SocksPort())];
      }
    }
  }

  method MasqueradeRules(host: Host, ups: seq<Upstream>) returns (post: seq<NatRule>)
    ensures post == Masquerades(host, ups)
  {
    post := [];
    for n := 0 to |ups|
      invariant Masquerades(host, ups) == post + Masquerades(host, ups[n..])
    {
      Suffix(ups, n);
      Associate(post, MasqueradeOf(host, ups[n]), Masquerades(host, ups[n + 1..]));
      ghost var before := post;
      if !ups[n].IsSOCKS() && host.ifaceExists(ups[n].iface) {
        post := post + [Masquerade(None, ups[n].table, Some(ups[n].iface))];
      }
      assert post == before + MasqueradeOf(host, ups[n]);
    }
  }

  method NftRuleset(host: Host, c: Config) returns (rs: Ruleset)
    ensures rs == RulesetOf(host, c)
  {
    var pre: seq<MarkRule> := [];
    var u := FindLoop(c, Resolve(c, ""));
    if u.Some? {
      pre := [MarkRule(TUN_DEV, None, u.value.table)];
    }
    var redirect := RedirectRules(c.upstreams);
    var post := MasqueradeRules(host, c.upstreams);
    rs := Ruleset(pre, redirect, post + [TUNNEL_NAT]);
  }

  // ----- nft commands -----

  const NEW_TABLE := Table([], [], [], 1)

  function Numbered(rules: seq<MarkRule>, first: nat): (es: seq<Entry>)
    ensures |es| == |rules|
  {
    seq(|rules|, i requires 0 <= i < |rules| => Entry(first + i, rules[i]))
  }

  /** "nft -f -": creates the table if there is none, else appends to its chains. */
  function Load(nft: Option<Table>, rs: Ruleset): Table {
    var t := if nft.Some? then nft.value else NEW_TABLE;
    Table(t.pre + Numbered(rs.pre, t.next), t.redirect + rs.redirect, t.post + rs.post,
          t.next + |rs.pre| + |rs.redirect| + |rs.post|)
  }

  function Append(t: Table, r: MarkRule): Table {
    t.(pre := t.pre + [Entry(t.next, r)], next := t.next + 1)
  }

  /** The entries of a chain without the one that carries handle h. */
  function DropHandle(pre: seq<Entry>, h: nat): seq<Entry> {
    if pre == [] then []
    else if pre[0].handle == h then pre[1..]
    else [pre[0]] + DropHandle(pre[1..], h)
  }

  predicate HasHandle(pre: seq<Entry>, h: nat) {
    exists i :: 0 <= i < |pre| && pre[i].handle == h
  }

  // ----- what the kernel does to a packet -----

  /** The first packet of a flow: its input interface, its source address and whether it is TCP. */
  datatype Packet = Packet(iif: string, src: nat, tcp: bool)

  predicate Matches(r: MarkRule, p: Packet) {
    r.iif == p.iif && (r.saddr.Some? ==> r.saddr.value == p.src)
  }

  /** The mangle chain: every matching rule sets the mark, in order. */
  function RunChain(pre: seq<Entry>, p: Packet, mark: int): int {
    if pre == [] then mark
    else RunChain(pre[1..], p, if Matches(pre[0].rule, p) then pre[0].rule.mark else mark)
  }

  function FirstRedirect(rs: seq<Redirect>, mark: int): Option<int> {
    if rs == [] then None
    else if rs[0].mark == mark then Some(rs[0].port)
    else FirstRedirect(rs[1..], mark)
  }

  /** The default route a table yields while up says which interfaces exist: the kernel drops a
      vanished interface's route and falls back to the next metric. */
  function TableRoute(k: Kernel, table: int, up: string -> bool): Option<Route> {
    var rs := Routes(k, table);
    if 0 in rs && (rs[0].ViaDev? ==> up(rs[0].dev)) then Some(rs[0])
    else if FALLBACK_METRIC in rs && (rs[FALLBACK_METRIC].ViaDev? ==> up(rs[FALLBACK_METRIC].dev)) then
      Some(rs[FALLBACK_METRIC])
    else None
  }

  /** The fwmark rules by priority; a rule whose table has no route passes on to the next one. */
  function FwmarkRoute(k: Kernel, mark: int, up: string -> bool, prio: int): Option<Route>
    requires RULE_PRIO_BASE <= prio <= RULE_PRIO_BASE + MAX_UPSTREAMS
    decreases RULE_PRIO_BASE + MAX_UPSTREAMS - prio
  {
    if prio == RULE_PRIO_BASE + MAX_UPSTREAMS then None
    else if prio in k.rules && k.rules[prio].fwmark == mark && TableRoute(k, k.rules[prio].table, up).Some? then
      TableRoute(k, k.rules[prio].table, up)
    else FwmarkRoute(k, mark, up, prio + 1)
  }

  predicate Natted(post: seq<NatRule>, p: Packet, mark: int, oif: string) {
    exists i :: 0 <= i < |post|
      && post[i].mark == mark
      && (post[i].iif.Some? ==> post[i].iif.value == p.iif)
      && (post[i].oif.Some? ==> post[i].oif.value == oif)
  }

  datatype Fate =
    | Relayed(port: int)                        // redirected to a local SOCKS relay
    | Sent(dev: string, masqueraded: bool)      // out an upstream's interface
    | Dropped                                   // unreachable
    | ByHostDefault(masqueraded: bool)          // no upstream: the host's own default route

  function MarkOf(k: Kernel, p: Packet): int {
    if k.nft.Some? then RunChain(k.nft.value.pre, p, 0) else 0
  }

  function FateOf(k: Kernel, p: Packet, up: string -> bool, hostDev: string): Fate {
    var mark := MarkOf(k, p);
    var redirect := if k.nft.Some? && p.tcp then FirstRedirect(k.nft.value.redirect, mark) else None;
    var post := if k.nft.Some? then k.nft.value.post else [];
    if redirect.Some? then Relayed(redirect.value)
    else match FwmarkRoute(k, mark, up, RULE_PRIO_BASE)
         case Some(ViaDev(dev, _)) => Sent(dev, Natted(post, p, mark, dev))
         case Some(Unreachable) => Dropped
         case None => ByHostDefault(Natted(post, p, mark, hostDev))
  }

  // ----- facts about chains -----

  lemma {:induction false} RunChainConcat(a: seq<Entry>, b: seq<Entry>, p: Packet, mark: int)
    ensures RunChain(a + b, p, mark) == RunChain(b, p, RunChain(a, p, mark))
    decreases |a|
  {
    if a == [] {
      assert a + b == b;
    } else {
      assert (a + b)[1..] == a[1..] + b;
      RunChainConcat(a[1..], b, p, if Matches(a[0].rule, p) then a[0].rule.mark else mark);
    }
  }

  lemma {:induction false} RunChainNoMatch(pre: seq<Entry>, p: Packet, mark: int)
    requires forall i :: 0 <= i < |pre| ==> !Matches(pre[i].rule, p)
    ensures RunChain(pre, p, mark) == mark
    decreases |pre|
  {
    if pre != [] {
      RunChainNoMatch(pre[1..], p, mark);
    }
  }

  /** The last rule that matches decides the mark. */
  lemma LastMatchWins(pre: seq<Entry>, i: nat, p: Packet, mark: int)
    requires i < |pre| && Matches(pre[i].rule, p)
    requires forall j :: i < j < |pre| ==> !Matches(pre[j].rule, p)
    ensures RunChain(pre, p, mark) == pre[i].rule.mark
  {
    assert pre == pre[..i] + pre[i..];
    RunChainConcat(pre[..i], pre[i..], p, mark);
    RunChainNoMatch(pre[i..][1..], p, pre[i].rule.mark);
  }

  lemma {:induction false} DropHandleExact(pre: seq<Entry>, h: nat)
    requires forall i, j :: 0 <= i < j < |pre| ==> pre[i].handle < pre[j].handle
    ensures var r := DropHandle(pre, h);
      && (forall e :: e in r <==> e in pre && e.handle != h)
      && (forall i, j :: 0 <= i < j < |r| ==> r[i].handle < r[j].handle)
    decreases |pre|
  {
    DropMembers(pre, h);
    if pre != [] && pre[0].handle != h {
      DropHandleExact(pre[1..], h);
      var rest := DropHandle(pre[1..], h);
      assert forall k :: 0 <= k < |rest| ==> rest[k] in pre[1..];
    }
  }

  lemma {:induction false} DropMembers(pre: seq<Entry>, h: nat)
    requires forall i, j :: 0 <= i < j < |pre| ==> pre[i].handle < pre[j].handle
    ensures forall e :: e in DropHandle(pre, h) <==> e in pre && e.handle != h
    decreases |pre|
  {
    if pre != [] {
      assert forall e :: e in pre <==> e == pre[0] || e in pre[1..];
      if pre[0].handle != h {
        DropMembers(pre[1..], h);
      }
    }
  }

  // ----- the redirect and masquerade chains mean the upstream list -----

  /** A SOCKS upstream's mark is redirected to its own relay port, any other mark is not redirected. */
  lemma {:induction false} RedirectMeansUpstream(ups: seq<Upstream>, mark: int)
    requires DistinctTables(ups)
    ensures forall u :: u in ups && u.IsSOCKS() && u.table == mark ==>
      FirstRedirect(Redirects(ups), mark) == Some(u.SocksPort())
    ensures (forall u :: u in ups && u.table == mark ==> !u.IsSOCKS()) ==> FirstRedirect(Redirects(ups), mark).None?
  {
    if ups != [] {
      RedirectMeansUpstream(ups[1..], mark);
      assert ups == [ups[0]] + ups[1..];
      forall u | u in ups[1..] && u.table == mark ensures ups[0].table != mark {
        var i :| 0 <= i < |ups[1..]| && ups[1..][i] == u;
        assert ups[i + 1] == u;
      }
      if ups[0].IsSOCKS() {
        assert Redirects(ups) == [Redirect(ups[0].table, ups[0].SocksPort())] + Redirects(ups[1..]);
        assert Redirects(ups)[1..] == Redirects(ups[1..]);
      } else {
        assert Redirects(ups) == Redirects(ups[1..]);
      }
    }
  }

  lemma {:induction false} MasqueradesMeanUpstreams(host: Host, ups: seq<Upstream>)
    ensures forall r :: r in Masquerades(host, ups) <==>
      exists i :: 0 <= i < |ups| && !ups[i].IsSOCKS() && host.ifaceExists(ups[i].iface)
        && r == Masquerade(None, ups[i].table, Some(ups[i].iface))
  {
    if ups != [] {
      MasqueradesMeanUpstreams(host, ups[1..]);
      assert forall i :: 0 <= i < |ups[1..]| ==> ups[1..][i] == ups[i + 1];
      assert forall i :: 1 <= i < |ups| ==> ups[i] == ups[1..][i - 1];
    }
  }
}
