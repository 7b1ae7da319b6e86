/**
 What each operation of the tracker reports, and what it leaves when a command
 failed: exactly which outcomes make Apply, Establish, Disconnect and Reassign
 succeed, and what is tracked and in the chain afterwards in every case.
 */
module EgressReports {
  import opened Wrappers
  import opened UpstreamConfig
  import opened Netfilter
  import opened KillSwitch
  import opened Egress
  import opened RuleSafety
  import opened TrackerAgreement
  import opened PacketFates

  // ----- one session -----

  predicate IsIPv4(host: Host, ip: string) { host.parseIP(ip).Some? && host.parseIP(ip).value.IPv4? }

  /** An override of client cn can be put in force at ip: its upstream exists, the address is IPv4 and there is
      a table to add to. */
  predicate Enforceable(host: Host, k: Kernel, c: Config, cn: string, ip: string) {
    && cn in c.perCN && (exists u :: u in c.upstreams && u.id == c.perCN[cn])
    && IsIPv4(host, ip) && k.nft.Some?
  }

  /** The rule that enforces it. */
  function OverrideRule(host: Host, c: Config, cn: string, ip: string): MarkRule
    requires cn in c.perCN && Find(c, c.perCN[cn]).Some? && IsIPv4(host, ip)
  {
    MarkRule(TUN_DEV, Some(host.parseIP(ip).value.bits), Find(c, c.perCN[cn]).value.table)
  }

  /** The chain has gained a rule, under the table's next handle, or lost the one with a handle, or both;
      everything else is as it was. */
  ghost predicate ChainBecomes(k: Kernel, k': Kernel, added: Option<MarkRule>, gone: Option<nat>) {
    && k.nft.Some? && k'.nft.Some? && Chain(k'.nft.value) && k'.nft.value.next >= k.nft.value.next
    && (forall e :: e in k'.nft.value.pre <==>
          (e in k.nft.value.pre || (added.Some? && e == Entry(k.nft.value.next, added.value)))
          && (gone.Some? ==> e.handle != gone.value))
    && k'.nft.value.redirect == k.nft.value.redirect && k'.nft.value.post == k.nft.value.post
    && k'.routes == k.routes && k'.rules == k.rules
  }

  ghost predicate ChainOk(k: Kernel) { k.nft.Some? ==> Chain(k.nft.value) }

  predicate InPlace(k: Kernel, h: nat) {
    k.nft.Some? && exists e :: e in k.nft.value.pre && e.handle == h
  }

  lemma FoundIff(ups: seq<Upstream>, id: string)
    ensures FindIn(ups, id).Some? <==> exists u :: u in ups && u.id == id
  {
    if FindIn(ups, id).Some? {
      assert FindIn(ups, id).value in ups;
    }
  }

  /** nft delete rule succeeds exactly if it runs and the handle names a rule. */
  lemma RemoveReports(k: Kernel, h: nat, ok: bool)
    requires ChainOk(k)
    ensures var (k', removed) := RemoveRule(k, h, ok);
      && (removed <==> ok && InPlace(k, h))
      && (if removed then ChainBecomes(k, k', None, Some(h)) else k' == k)
  {
    if k.nft.Some? && HasHandle(k.nft.value.pre, h) {
      var i :| 0 <= i < |k.nft.value.pre| && k.nft.value.pre[i].handle == h;
      assert k.nft.value.pre[i] in k.nft.value.pre;
      DropHandleExact(k.nft.value.pre, h);
      DropKeepsChain(k.nft.value, h);
    }
  }

  lemma AddReports(host: Host, k: Kernel, ip: string, table: int, o: AddOutcome)
    requires ChainOk(k)
    ensures var (k', handle) := AddRule(host, k, ip, table, o);
      var goesIn := ClientAddr(host, ip).Some? && k.nft.Some? && !o.Refused?;
      && (if goesIn then ChainBecomes(k, k', Some(MarkRule(TUN_DEV, ClientAddr(host, ip), table)), None) else k' == k)
      && handle == (if goesIn && o.Added? then Some(k.nft.value.next) else None)
  {
  }

  /** ESTABLISHED succeeds exactly for a client without an override or one whose rule went in and named its
      handle. Without the handle the rule stays, and nothing is tracked. */
  lemma EstablishReports(host: Host, s: State, cid: string, cn: string, ip: string, c: Config, o: AddOutcome)
    requires ChainOk(s.kernel)
    ensures var (s', ok) := Establish(host, s, cid, cn, ip, c, o);
      var can := Enforceable(host, s.kernel, c, cn, ip);
      && (ok <==> cn !in c.perCN || (can && o.Added?))
      && s'.tracked == (if can && o.Added? then s.tracked[cid := TrackedRule(ip, cn, s.kernel.nft.value.next)]
                        else s.tracked)
      && (can ==> Find(c, c.perCN[cn]).Some?)
      && (if can && !o.Refused? then ChainBecomes(s.kernel, s'.kernel, Some(OverrideRule(host, c, cn, ip)), None)
          else s'.kernel == s.kernel)
  {
    if cn in c.perCN {
      FoundIff(c.upstreams, c.perCN[cn]);
      if Find(c, c.perCN[cn]).Some? {
        AddReports(host, s.kernel, ip, Find(c, c.perCN[cn]).value.table, o);
      }
    }
  }

  /** A removal succeeds exactly if there was nothing to remove, or nft removed the rule. Otherwise the entry
      and the rule stay. */
  lemma UninstallReports(s: State, cid: string, remove: bool)
    requires ChainOk(s.kernel)
    ensures var (s', ok) := UninstallRule(s, cid, remove);
      && (ok <==> cid !in s.tracked || (remove && InPlace(s.kernel, s.tracked[cid].handle)))
      && s'.tracked == (if ok then s.tracked - {cid} else s.tracked)
      && (if ok && cid in s.tracked then ChainBecomes(s.kernel, s'.kernel, None, Some(s.tracked[cid].handle))
          else s'.kernel == s.kernel)
      && Disconnect(s, cid, remove) == s'
  {
    if cid in s.tracked {
      RemoveReports(s.kernel, s.tracked[cid].handle, remove);
    } else {
      assert s.tracked - {cid} == s.tracked;
    }
  }

  /** Reassign of an overridden client succeeds exactly if its rule went in; the old rule then goes if it is
      still there and nft removes it. If the new one was refused, everything stays as it was. Of a client without
      an override it is a removal. */
  lemma ReassignReports(host: Host, s: State, cid: string, cn: string, ip: string, c: Config, o: AddOutcome,
                        remove: bool)
    requires Safe(host, s)
    ensures var r := Reassign(host, s, cid, cn, ip, c, o, remove);
      if cn in c.perCN then Reassigned(host, s, cid, cn, ip, c, o, remove, r.0, r.1)
      else r == UninstallRule(s, cid, remove)
  {
    if cn in c.perCN {
      OverriddenReassigned(host, s, cid, cn, ip, c, o, remove);
    }
  }

  ghost predicate Reassigned(host: Host, s: State, cid: string, cn: string, ip: string, c: Config, o: AddOutcome,
                             remove: bool, s': State, ok: bool)
    requires cn in c.perCN
  {
    var can := Enforceable(host, s.kernel, c, cn, ip);
    var had := cid in s.tracked && InPlace(s.kernel, s.tracked[cid].handle);
    && (ok <==> can && o.Added?)
    && s'.tracked == (if ok then s.tracked[cid := TrackedRule(ip, cn, s.kernel.nft.value.next)] else s.tracked)
    && (can ==> Find(c, c.perCN[cn]).Some?)
    && (if can && !o.Refused? then
          ChainBecomes(s.kernel, s'.kernel, Some(OverrideRule(host, c, cn, ip)),
                       if ok && remove && had then Some(s.tracked[cid].handle) else None)
        else s'.kernel == s.kernel)
  }

  lemma OverriddenReassigned(host: Host, s: State, cid: string, cn: string, ip: string, c: Config, o: AddOutcome,
                             remove: bool)
    requires Safe(host, s) && cn in c.perCN
    ensures var (s', ok) := Reassign(host, s, cid, cn, ip, c, o, remove);
      Reassigned(host, s, cid, cn, ip, c, o, remove, s', ok)
  {
    FoundIff(c.upstreams, c.perCN[cn]);
    if Enforceable(host, s.kernel, c, cn, ip) {
      var table := Find(c, c.perCN[cn]).value.table;
      AddReports(host, s.kernel, ip, table, o);
      if o.Added? && cid in s.tracked {
        ReplaceReports(s.kernel, AddRule(host, s.kernel, ip, table, o).0, s.tracked[cid].handle, remove,
                       OverrideRule(host, c, cn, ip));
      }
    }
  }

  lemma ReplaceReports(k: Kernel, k1: Kernel, h: nat, remove: bool, r: MarkRule)
    requires ChainBecomes(k, k1, Some(r), None) && h < k.nft.value.next
    ensures var (k', removed) := RemoveRule(k1, h, remove);
      && (removed <==> remove && InPlace(k, h))
      && ChainBecomes(k, k', Some(r), if removed then Some(h) else None)
  {
    RemoveReports(k1, h, remove);
    assert InPlace(k1, h) <==> InPlace(k, h);
  }

  // ----- all sessions -----

  /** The entry's own rule is in place and its removal goes through. */
  predicate Removable(k: Kernel, e: TrackedRule, remove: bool) { remove && InPlace(k, e.handle) }

  /** OnExit keeps exactly the entries whose rule nft did not remove. */
  lemma {:induction false} ClearAllKeeps(host: Host, s: State, order: seq<string>, remove: string -> bool)
    requires Safe(host, s)
    requires forall i, j :: 0 <= i < j < |order| ==> order[i] != order[j]
    ensures var s' := ClearAll(s, order, remove);
      && (forall cid :: cid in s'.tracked <==>
            cid in s.tracked && !(cid in order && Removable(s.kernel, s.tracked[cid], remove(cid))))
      && (forall cid :: cid in s'.tracked ==> s'.tracked[cid] == s.tracked[cid])
    decreases |order|
  {
    if order != [] {
      var s1 := UninstallRule(s, order[0], remove(order[0])).0;
      UninstallReports(s, order[0], remove(order[0]));
      UninstallKeeps(host, s, order[0], remove(order[0]));
      OthersStayInPlace(host, s, order[0], remove(order[0]));
      ClearAllKeeps(host, s1, order[1..], remove);
      assert forall cid :: cid in order <==> cid == order[0] || cid in order[1..];
      assert order[0] !in order[1..];
    }
  }

  lemma OthersStayInPlace(host: Host, s: State, cid: string, remove: bool)
    requires Safe(host, s)
    ensures forall x :: x in s.tracked && x != cid ==>
      (InPlace(UninstallRule(s, cid, remove).0.kernel, s.tracked[x].handle) <==> InPlace(s.kernel, s.tracked[x].handle))
  {
    UninstallReports(s, cid, remove);
  }

  /** A session gets its rule back in Apply: it is still overridden, its rule can be added, and is. */
  predicate Restored(host: Host, e: TrackedRule, c: Config, o: AddOutcome) {
    && e.cn in c.perCN && (exists u :: u in c.upstreams && u.id == c.perCN[e.cn])
    && IsIPv4(host, e.ip) && o.Added?
  }

  lemma ReinstallOneReports(host: Host, s: State, cid: string, c: Config, o: AddOutcome)
    requires cid in s.tracked && s.kernel.nft.Some?
    ensures var (s', ok) := ReinstallOne(host, s, cid, c, o);
      && (ok <==> s.tracked[cid].cn in c.perCN ==> Restored(host, s.tracked[cid], c, o))
      && (cid in s'.tracked <==> Restored(host, s.tracked[cid], c, o))
      && (cid in s'.tracked ==> s'.tracked[cid] == s.tracked[cid].(handle := s.kernel.nft.value.next))
      && s'.tracked - {cid} == s.tracked - {cid} && s'.kernel.nft.Some?
  {
    if s.tracked[cid].cn in c.perCN {
      FoundIff(c.upstreams, c.perCN[s.tracked[cid].cn]);
    }
  }

  /** The loop of reinstall, whichever adds fail: it keeps exactly the sessions that got their rule back, and
      reports an error exactly if an overridden one did not. */
  lemma {:induction false} ReinstallReports(host: Host, s: State, order: seq<string>, c: Config,
                                            add: string -> AddOutcome)
    requires Listed(order, s) && s.kernel.nft.Some?
    ensures var (s', ok) := Reinstall(host, s, order, c, add);
      && (ok <==> forall cid :: cid in order && s.tracked[cid].cn in c.perCN ==>
            Restored(host, s.tracked[cid], c, add(cid)))
      && (forall cid :: cid in s'.tracked <==>
            cid in s.tracked && (cid in order ==> Restored(host, s.tracked[cid], c, add(cid))))
      && (forall cid :: cid in s'.tracked ==> s'.tracked[cid].cn == s.tracked[cid].cn
                                              && s'.tracked[cid].ip == s.tracked[cid].ip)
    decreases |order|
  {
    if order != [] {
      var x, rest := order[0], order[1..];
      var s1 := ReinstallOne(host, s, x, c, add(x)).0;
      ReinstallOneReports(host, s, x, c, add(x));
      OthersListed(order, s, s1);
      ReinstallReports(host, s1, rest, c, add);
      assert forall cid :: cid in order <==> cid == x || cid in rest;
    }
  }

  lemma OthersListed(order: seq<string>, s: State, s1: State)
    requires order != [] && Listed(order, s) && s1.tracked - {order[0]} == s.tracked - {order[0]}
    ensures Listed(order[1..], s1) && order[0] !in order[1..]
    ensures forall cid :: cid != order[0] ==>
      (cid in s1.tracked <==> cid in s.tracked) && (cid in s.tracked ==> s1.tracked[cid] == s.tracked[cid])
  {
    forall cid | cid != order[0]
      ensures (cid in s1.tracked <==> cid in s.tracked) && (cid in s.tracked ==> s1.tracked[cid] == s.tracked[cid])
    {
      assert cid in s1.tracked - {order[0]} <==> cid in s.tracked - {order[0]};
    }
  }

  // ----- Apply -----

  /** All three commands of every interface-mode upstream succeeded. */
  predicate RoutesIn(ups: seq<Upstream>, ok: IpCommand -> bool) {
    forall u :: u in ups && u.socks == "" ==>
      && ok(ReplaceDefault(u.iface, u.gateway, u.table))
      && ok(ReplaceUnreachable(u.table, FALLBACK_METRIC))
      && ok(AddFwmarkRule(u.table, u.table, RulePrio(u.table)))
  }

  predicate AllIn(cs: seq<IpCommand>, ok: IpCommand -> bool) { forall i :: 0 <= i < |cs| ==> ok(cs[i]) }

  lemma AllInConcat(a: seq<IpCommand>, b: seq<IpCommand>, ok: IpCommand -> bool)
    ensures AllIn(a + b, ok) <==> AllIn(a, ok) && AllIn(b, ok)
  {
    if AllIn(a + b, ok) {
      assert forall i :: 0 <= i < |a| ==> a[i] == (a + b)[i];
      assert forall i :: 0 <= i < |b| ==> b[i] == (a + b)[|a| + i];
    }
  }

  lemma {:induction false} RouteErrorsIff(ups: seq<Upstream>, ok: IpCommand -> bool)
    ensures AllIn(RouteCommands(ups), ok) <==> RoutesIn(ups, ok)
  {
    if ups != [] {
      var head := if ups[0].IsSOCKS() then [] else RouteArgs(ups[0]);
      RouteErrorsIff(ups[1..], ok);
      AllInConcat(head, RouteCommands(ups[1..]), ok);
      assert forall u :: u in ups <==> u == ups[0] || u in ups[1..];
      if !ups[0].IsSOCKS() {
        assert head[0] == ReplaceDefault(ups[0].iface, ups[0].gateway, ups[0].table);
        assert head[1] == ReplaceUnreachable(ups[0].table, FALLBACK_METRIC);
        assert head[2] == AddFwmarkRule(ups[0].table, ups[0].table, RulePrio(ups[0].table));
      }
    }
  }

  /** Every overridden session gets its rule back. */
  ghost predicate AllRestored(host: Host, s: State, c: Config, add: string -> AddOutcome) {
    forall cid :: cid in s.tracked && s.tracked[cid].cn in c.perCN ==>
      IsIPv4(host, s.tracked[cid].ip) && add(cid).Added?
  }

  /** Apply reports success exactly if the configuration is valid, every route command of every interface-mode
      upstream succeeded, the relays are in sync, the ruleset was checked and loaded, and every tracked session
      that is overridden got its rule. */
  lemma ApplyReports(host: Host, s: State, c: Config, o: Outcomes, order: seq<string>)
    requires IsOrder(order, s)
    ensures Apply(host, s, c, o, order).1 <==>
      Valid(host, c) && RoutesIn(c.upstreams, o.ip) && o.relays && o.check && o.load && AllRestored(host, s, c, o.add)
  {
    NoErrorIffValid(host, c);
    RouteErrorsIff(c.upstreams, o.ip);
    assert RouteErrors(c.upstreams, o.ip) <==> !AllIn(RouteCommands(c.upstreams), o.ip);
    if Valid(host, c) && o.check && o.load {
      var k := Rebuilt(s.kernel, c, o);
      var loaded := s.(kernel := k.(nft := Some(Load(k.nft, RulesetOf(host, c)))));
      assert Listed(order, loaded);
      ReinstallReports(host, loaded, order, c, o.add);
      AllRestoredIff(host, s, c, o.add, order);
    }
  }

  lemma AllRestoredIff(host: Host, s: State, c: Config, add: string -> AddOutcome, order: seq<string>)
    requires Valid(host, c) && IsOrder(order, s)
    ensures AllRestored(host, s, c, add) <==>
      forall cid :: cid in order && s.tracked[cid].cn in c.perCN ==> Restored(host, s.tracked[cid], c, add(cid))
  {
    forall cid | cid in s.tracked && s.tracked[cid].cn in c.perCN
      ensures exists u :: u in c.upstreams && u.id == c.perCN[s.tracked[cid].cn]
    {
      ResolvesToDefined(host, c, s.tracked[cid].cn);
      FoundIff(c.upstreams, c.perCN[s.tracked[cid].cn]);
    }
  }

  /** What Apply leaves: nothing touched by an invalid configuration; the rebuilt band and, if it could be
      deleted, no table after a failed check or load, so that nobody is marked; and otherwise exactly the
      sessions tracked that got their rule back. */
  lemma ApplyLeaves(host: Host, s: State, c: Config, o: Outcomes, order: seq<string>)
    requires IsOrder(order, s)
    ensures var s' := Apply(host, s, c, o, order).0;
      if !Valid(host, c) then s' == s
      else
        && s'.kernel.routes == Rerouted(s.kernel, c.upstreams, o.ip).routes
        && s'.kernel.rules == Rerouted(s.kernel, c.upstreams, o.ip).rules
        && if !o.check || !o.load then
             s'.tracked == s.tracked && s'.kernel.nft == if o.deleteTable then None else s.kernel.nft
           else
             && (forall cid :: cid in s'.tracked <==>
                   cid in s.tracked && Restored(host, s.tracked[cid], c, o.add(cid)))
             && (forall cid :: cid in s'.tracked ==> s'.tracked[cid].cn == s.tracked[cid].cn
                                                     && s'.tracked[cid].ip == s.tracked[cid].ip)
  {
    NoErrorIffValid(host, c);
    RebuiltRoutes(s.kernel, c, o);
    RebuiltNft(s.kernel, c, o);
    if Valid(host, c) && o.check && o.load {
      var k := Rebuilt(s.kernel, c, o);
      var loaded := s.(kernel := k.(nft := Some(Load(k.nft, RulesetOf(host, c)))));
      assert Listed(order, loaded);
      ReinstallReports(host, loaded, order, c, o.add);
      ReinstallKeepsRoutes(host, loaded, order, c, o.add);
    }
  }

  lemma RebuiltNft(k: Kernel, c: Config, o: Outcomes)
    ensures Rebuilt(k, c, o).nft == if o.deleteTable then None else k.nft
  {
    var swept := ExecAll(k, TeardownFrom(0), o.ip);
    ExecKeepsNft(k, TeardownFrom(0), o.ip);
    ExecKeepsNft(if o.deleteTable then swept.(nft := None) else swept, RouteCommands(c.upstreams), o.ip);
  }
}
