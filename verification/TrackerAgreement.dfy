/**
 While the nft commands succeed, the chain and the tracked table agree exactly:
 one rule per tracked session, no other client rule. Agreement is kept by every
 operation, rebuilt by Apply from any tracked table, and decides every packet's
 mark.
 */
module TrackerAgreement {
  import opened Wrappers
  import opened UpstreamConfig
  import opened Netfilter
  import opened Egress
  import opened RuleSafety

  // ----- the chain and the tracked table agree -----

  ghost predicate Owned(s: State, done: set<string>, handle: nat) {
    exists cid :: cid in done && cid in s.tracked && s.tracked[cid].handle == handle
  }

  /** Entry n is the rule of tracked session e. */
  ghost predicate RuleAt(host: Host, t: Table, n: nat, e: TrackedRule) {
    && n < |t.pre|
    && t.pre[n].handle == e.handle
    && t.pre[n].rule.iif == TUN_DEV
    && t.pre[n].rule.saddr.Some? && t.pre[n].rule.saddr == ClientAddr(host, e.ip)
  }

  /** The loaded table starts with c's compiled ruleset. */
  ghost predicate Compiled(host: Host, c: Config, t: Table) {
    var base := DefaultMark(c);
    && Chain(t)
    && t.redirect == RulesetOf(host, c).redirect && t.post == RulesetOf(host, c).post
    && |base| <= |t.pre|
    && (forall i :: 0 <= i < |base| ==> t.pre[i].rule == base[i])
  }

  /** Every rule from b on belongs to a session of done or is one of extra. */
  ghost predicate RulesOwned(s: State, t: Table, b: nat, done: set<string>, extra: set<nat>) {
    forall i :: b <= i < |t.pre| ==> t.pre[i].handle in extra || Owned(s, done, t.pre[i].handle)
  }

  ghost predicate HasRule(host: Host, t: Table, b: nat, e: TrackedRule) {
    exists n :: b <= n && RuleAt(host, t, n, e)
  }

  /** Every session of done owns one rule of its own, from b on, for its address. */
  ghost predicate SessionsRuled(host: Host, s: State, t: Table, b: nat, done: set<string>) {
    && (forall cid :: cid in done && cid in s.tracked ==> HasRule(host, t, b, s.tracked[cid]))
    && (forall x, y :: x in done && y in done && x in s.tracked && y in s.tracked && x != y ==>
          s.tracked[x].handle != s.tracked[y].handle)
  }

  /** The loaded table is c's compiled ruleset followed by exactly one rule per tracked session of done,
      for its address, and by the rules whose handles are in extra. */
  ghost predicate Exact(host: Host, c: Config, s: State, done: set<string>, extra: set<nat>) {
    && s.kernel.nft.Some?
    && var t, b := s.kernel.nft.value, |DefaultMark(c)|;
    && Compiled(host, c, t)
    && RulesOwned(s, t, b, done, extra)
    && SessionsRuled(host, s, t, b, done)
  }

  /** The mark a tracked session's rule sets. */
  ghost predicate Marks(s: State, cid: string, mark: int) {
    && cid in s.tracked && s.kernel.nft.Some?
    && forall i :: 0 <= i < |s.kernel.nft.value.pre| && s.kernel.nft.value.pre[i].handle == s.tracked[cid].handle ==>
         s.kernel.nft.value.pre[i].rule.mark == mark
  }

  /** t' is t with one entry more, the rule of e. */
  ghost predicate Appended(host: Host, t: Table, t': Table, e: TrackedRule) {
    && t'.redirect == t.redirect && t'.post == t.post
    && |t'.pre| == |t.pre| + 1 && t'.pre == t.pre + [t'.pre[|t.pre|]] && RuleAt(host, t', |t.pre|, e)
    && t.next == e.handle < t'.next
  }

  lemma AddAppends(host: Host, s: State, cid: string, cn: string, ip: string, up: Upstream)
    requires s.kernel.nft.Some? && Chain(s.kernel.nft.value) && ClientAddr(host, ip).Some?
    ensures var (s', ok) := AddTracked(host, s, cid, cn, ip, up, Added);
      ok && s'.kernel.nft.Some? && Appended(host, s.kernel.nft.value, s'.kernel.nft.value, s'.tracked[cid])
      && Chain(s'.kernel.nft.value) && s'.tracked == s.tracked[cid := s'.tracked[cid]]
      && Marks(s', cid, up.table)
  {
  }

  lemma AppendOwned(host: Host, s: State, s': State, t: Table, t': Table, b: nat, done: set<string>, extra: set<nat>,
                    cid: string)
    requires cid !in done && cid in s'.tracked && s'.tracked == s.tracked[cid := s'.tracked[cid]]
    requires Appended(host, t, t', s'.tracked[cid])
    requires RulesOwned(s, t, b, done, extra)
    ensures RulesOwned(s', t', b, done + {cid}, extra)
  {
    forall i | b <= i < |t'.pre| ensures t'.pre[i].handle in extra || Owned(s', done + {cid}, t'.pre[i].handle) {
      if i == |t.pre| {
        assert s'.tracked[cid].handle == t'.pre[i].handle;
      } else if t.pre[i].handle !in extra {
        var x :| x in done && x in s.tracked && s.tracked[x].handle == t.pre[i].handle;
        assert s'.tracked[x] == s.tracked[x] && x in done + {cid};
      }
    }
  }

  lemma AppendRuled(host: Host, s: State, s': State, t: Table, t': Table, b: nat, done: set<string>, cid: string)
    requires cid !in done && cid in s'.tracked && s'.tracked == s.tracked[cid := s'.tracked[cid]]
    requires Chain(t) && b <= |t.pre| && Appended(host, t, t', s'.tracked[cid])
    requires SessionsRuled(host, s, t, b, done)
    ensures SessionsRuled(host, s', t', b, done + {cid})
  {
    forall x | x in done && x in s.tracked
      ensures HasRule(host, t', b, s.tracked[x]) && s.tracked[x].handle < t.next
    {
      var n :| b <= n && RuleAt(host, t, n, s.tracked[x]);
      assert RuleAt(host, t', n, s.tracked[x]);
    }
  }

  lemma AddExact(host: Host, c: Config, s: State, done: set<string>, extra: set<nat>, cid: string, cn: string,
                 ip: string, up: Upstream)
    requires Exact(host, c, s, done, extra) && cid !in done
    requires ClientAddr(host, ip).Some?
    ensures var (s', ok) := AddTracked(host, s, cid, cn, ip, up, Added);
      ok && Exact(host, c, s', done + {cid}, extra) && Marks(s', cid, up.table)
  {
    var s' := AddTracked(host, s, cid, cn, ip, up, Added).0;
    var t, b := s.kernel.nft.value, |DefaultMark(c)|;
    AddAppends(host, s, cid, cn, ip, up);
    AppendOwned(host, s, s', t, s'.kernel.nft.value, b, done, extra, cid);
    AppendRuled(host, s, s', t, s'.kernel.nft.value, b, done, cid);
  }

  lemma AddKeepsMarks(host: Host, s: State, cid: string, cn: string, ip: string, up: Upstream, other: string, mark: int)
    requires other != cid && Marks(s, other, mark) && s.tracked[other].handle < s.kernel.nft.value.next
    ensures Marks(AddTracked(host, s, cid, cn, ip, up, Added).0, other, mark)
  {
  }

  lemma {:induction false} DropAt(pre: seq<Entry>, n: nat)
    requires n < |pre| && forall i, j :: 0 <= i < j < |pre| ==> pre[i].handle < pre[j].handle
    ensures DropHandle(pre, pre[n].handle) == pre[..n] + pre[n + 1..]
  {
    if n > 0 {
      assert pre[0].handle < pre[n].handle;
      DropAt(pre[1..], n - 1);
      assert pre[..n] == [pre[0]] + pre[1..][..n - 1];
    }
  }

  function Without1(t: Table, n: nat): Table
    requires n < |t.pre|
  {
    t.(pre := t.pre[..n] + t.pre[n + 1..])
  }

  lemma RemoveAt(k: Kernel, n: nat)
    requires k.nft.Some? && Chain(k.nft.value) && n < |k.nft.value.pre|
    ensures RemoveRule(k, k.nft.value.pre[n].handle, true) == (k.(nft := Some(Without1(k.nft.value, n))), true)
  {
    DropAt(k.nft.value.pre, n);
  }

  lemma RuleAtMoves(host: Host, t: Table, gone: nat, n: nat, e: TrackedRule)
    requires gone < |t.pre| && RuleAt(host, t, n, e) && n != gone
    ensures RuleAt(host, Without1(t, gone), if n < gone then n else n - 1, e)
  {
  }

  lemma DropCompiled(host: Host, c: Config, t: Table, n: nat)
    requires Compiled(host, c, t) && |DefaultMark(c)| <= n < |t.pre|
    ensures Compiled(host, c, Without1(t, n))
  {
    var t' := Without1(t, n);
    assert forall i :: 0 <= i < |t'.pre| ==> t'.pre[i] == if i < n then t.pre[i] else t.pre[i + 1];
  }

  lemma DropOwned(s: State, t: Table, b: nat, done: set<string>, extra: set<nat>, n: nat)
    requires RulesOwned(s, t, b, done, extra) && Chain(t) && b <= n < |t.pre|
    ensures RulesOwned(s, Without1(t, n), b, done, extra - {t.pre[n].handle})
  {
    var t' := Without1(t, n);
    forall i | b <= i < |t'.pre|
      ensures t'.pre[i].handle in extra - {t.pre[n].handle} || Owned(s, done, t'.pre[i].handle)
    {
      var was := if i < n then i else i + 1;
      assert t'.pre[i] == t.pre[was] && t.pre[was].handle != t.pre[n].handle;
    }
  }

  lemma DropRuled(host: Host, s: State, t: Table, b: nat, done: set<string>, n: nat)
    requires SessionsRuled(host, s, t, b, done) && b <= n < |t.pre| && !Owned(s, done, t.pre[n].handle)
    ensures SessionsRuled(host, s, Without1(t, n), b, done)
  {
    forall cid | cid in done && cid in s.tracked ensures HasRule(host, Without1(t, n), b, s.tracked[cid]) {
      var m :| b <= m && RuleAt(host, t, m, s.tracked[cid]);
      RuleAtMoves(host, t, n, m, s.tracked[cid]);
    }
  }

  lemma DropExact(host: Host, c: Config, s: State, done: set<string>, extra: set<nat>, n: nat)
    requires Exact(host, c, s, done, extra)
    requires |DefaultMark(c)| <= n < |s.kernel.nft.value.pre|
    requires !Owned(s, done, s.kernel.nft.value.pre[n].handle)
    ensures Exact(host, c, s.(kernel := RemoveRule(s.kernel, s.kernel.nft.value.pre[n].handle, true).0), done,
                  extra - {s.kernel.nft.value.pre[n].handle})
  {
    var t, b := s.kernel.nft.value, |DefaultMark(c)|;
    var s' := s.(kernel := s.kernel.(nft := Some(Without1(t, n))));
    RemoveAt(s.kernel, n);
    DropCompiled(host, c, t, n);
    DropOwned(s, t, b, done, extra, n);
    DropRuled(host, s, t, b, done, n);
    Reframe(host, s, s', Without1(t, n), b, done, extra - {t.pre[n].handle});
  }

  /** Ownership reads only the tracked entries of done. */
  lemma Reframe(host: Host, s: State, s': State, t: Table, b: nat, done: set<string>, extra: set<nat>)
    requires RulesOwned(s, t, b, done, extra) && SessionsRuled(host, s, t, b, done)
    requires forall cid :: cid in done ==> (cid in s.tracked <==> cid in s'.tracked)
    requires forall cid :: cid in done && cid in s.tracked ==> s'.tracked[cid] == s.tracked[cid]
    ensures RulesOwned(s', t, b, done, extra) && SessionsRuled(host, s', t, b, done)
  {
    forall i | b <= i < |t.pre| && Owned(s, done, t.pre[i].handle) ensures Owned(s', done, t.pre[i].handle) {
      var x :| x in done && x in s.tracked && s.tracked[x].handle == t.pre[i].handle;
      assert s'.tracked[x].handle == t.pre[i].handle;
    }
  }

  lemma RemoveKeepsMarks(s: State, n: nat, other: string, mark: int)
    requires Marks(s, other, mark) && Chain(s.kernel.nft.value) && n < |s.kernel.nft.value.pre|
    ensures Marks(s.(kernel := RemoveRule(s.kernel, s.kernel.nft.value.pre[n].handle, true).0), other, mark)
  {
    RemoveAt(s.kernel, n);
    var t' := Without1(s.kernel.nft.value, n);
    assert forall i :: 0 <= i < |t'.pre| ==>
      t'.pre[i] == if i < n then s.kernel.nft.value.pre[i] else s.kernel.nft.value.pre[i + 1];
  }

  /** Forgetting a session turns its rule into an extra one. */
  lemma Disown(host: Host, c: Config, s: State, done: set<string>, extra: set<nat>, cid: string)
    requires Exact(host, c, s, done, extra) && cid in done && cid in s.tracked
    ensures Exact(host, c, s, done - {cid}, extra + {s.tracked[cid].handle})
    ensures !Owned(s, done - {cid}, s.tracked[cid].handle)
  {
    var t, base, handle := s.kernel.nft.value, DefaultMark(c), s.tracked[cid].handle;
    forall i | |base| <= i < |t.pre|
      ensures t.pre[i].handle in extra + {handle} || Owned(s, done - {cid}, t.pre[i].handle)
    {
      if t.pre[i].handle !in extra {
        var x :| x in done && x in s.tracked && s.tracked[x].handle == t.pre[i].handle;
        if x != cid {
          assert x in done - {cid};
        }
      }
    }
  }

  /** More rules may be called extra. */
  lemma Widen(host: Host, c: Config, s: State, done: set<string>, extra: set<nat>, more: set<nat>)
    requires Exact(host, c, s, done, extra) && extra <= more
    ensures Exact(host, c, s, done, more)
  {
  }

  lemma UninstallExact(host: Host, c: Config, s: State, extra: set<nat>, cid: string)
    requires Exact(host, c, s, s.tracked.Keys, extra)
    ensures var (s', ok) := UninstallRule(s, cid, true);
      ok && s'.tracked == s.tracked - {cid} && Exact(host, c, s', s'.tracked.Keys, extra)
  {
    if cid in s.tracked {
      var keys, handle := s.tracked.Keys - {cid}, s.tracked[cid].handle;
      var n := RuleOf(host, c, s, s.tracked.Keys, extra, cid);
      Disown(host, c, s, s.tracked.Keys, extra, cid);
      DropExact(host, c, s, keys, extra + {handle}, n);
      RemoveAt(s.kernel, n);
      var s1 := s.(kernel := RemoveRule(s.kernel, handle, true).0);
      var s' := UninstallRule(s, cid, true).0;
      Widen(host, c, s1, keys, extra + {handle} - {handle}, extra);
      assert s'.tracked.Keys == keys;
      Reframe(host, s1, s', s'.kernel.nft.value, |DefaultMark(c)|, keys, extra);
    } else {
      assert s.tracked - {cid} == s.tracked;
    }
  }

  lemma RuleOf(host: Host, c: Config, s: State, done: set<string>, extra: set<nat>, cid: string) returns (n: nat)
    requires Exact(host, c, s, done, extra) && cid in done && cid in s.tracked
    ensures |DefaultMark(c)| <= n && RuleAt(host, s.kernel.nft.value, n, s.tracked[cid])
  {
    assert HasRule(host, s.kernel.nft.value, |DefaultMark(c)|, s.tracked[cid]);
    n :| |DefaultMark(c)| <= n && RuleAt(host, s.kernel.nft.value, n, s.tracked[cid]);
  }

  /** Adding a rule for a session that has one: the old rule stays behind, with nobody to remove it. */
  lemma OverwriteExact(host: Host, c: Config, s: State, extra: set<nat>, cid: string, cn: string, ip: string,
                       up: Upstream)
    requires Exact(host, c, s, s.tracked.Keys, extra) && ClientAddr(host, ip).Some? && cid in s.tracked
    ensures var s' := AddTracked(host, s, cid, cn, ip, up, Added).0;
      && Exact(host, c, s', s.tracked.Keys, extra + {s.tracked[cid].handle})
      && Marks(s', cid, up.table) && !Owned(s', s.tracked.Keys, s.tracked[cid].handle)
  {
    var keys, handle := s.tracked.Keys, s.tracked[cid].handle;
    Disown(host, c, s, keys, extra, cid);
    AddExact(host, c, s, keys - {cid}, extra + {handle}, cid, cn, ip, up);
    assert keys - {cid} + {cid} == keys;
    AddDisowns(host, c, s, extra, cid, cn, ip, up);
  }

  /** The new rule's handle is not the old one's. */
  lemma AddDisowns(host: Host, c: Config, s: State, extra: set<nat>, cid: string, cn: string, ip: string, up: Upstream)
    requires Exact(host, c, s, s.tracked.Keys, extra) && ClientAddr(host, ip).Some? && cid in s.tracked
    ensures !Owned(AddTracked(host, s, cid, cn, ip, up, Added).0, s.tracked.Keys, s.tracked[cid].handle)
  {
    var n := RuleOf(host, c, s, s.tracked.Keys, extra, cid);
    Disown(host, c, s, s.tracked.Keys, extra, cid);
  }

  /** Replacing a session's rule: the new one in before the old one out. */
  lemma ReplaceExact(host: Host, c: Config, s: State, extra: set<nat>, cid: string, cn: string, ip: string,
                     up: Upstream)
    requires Exact(host, c, s, s.tracked.Keys, extra) && ClientAddr(host, ip).Some? && cid in s.tracked
    ensures var s' := InstallRule(host, s, cid, cn, ip, up, Added, true).0;
      Exact(host, c, s', s.tracked.Keys, extra) && Marks(s', cid, up.table)
  {
    var keys, handle := s.tracked.Keys, s.tracked[cid].handle;
    var n := RuleOf(host, c, s, keys, extra, cid);
    OverwriteExact(host, c, s, extra, cid, cn, ip, up);
    var s1, s' := AddTracked(host, s, cid, cn, ip, up, Added).0, InstallRule(host, s, cid, cn, ip, up, Added, true).0;
    assert s1.kernel.nft.value.pre[n] == s.kernel.nft.value.pre[n];
    DropExact(host, c, s1, keys, extra + {handle}, n);
    Widen(host, c, s', keys, extra + {handle} - {handle}, extra);
    RemoveKeepsMarks(s1, n, cid, up.table);
  }

  lemma InstallExact(host: Host, c: Config, s: State, extra: set<nat>, cid: string, cn: string, ip: string,
                     up: Upstream)
    requires Exact(host, c, s, s.tracked.Keys, extra) && ClientAddr(host, ip).Some?
    ensures var s' := InstallRule(host, s, cid, cn, ip, up, Added, true).0;
      Exact(host, c, s', s.tracked.Keys + {cid}, extra) && Marks(s', cid, up.table)
  {
    if cid in s.tracked {
      ReplaceExact(host, c, s, extra, cid, cn, ip, up);
      assert s.tracked.Keys + {cid} == s.tracked.Keys;
    } else {
      AddExact(host, c, s, s.tracked.Keys, extra, cid, cn, ip, up);
    }
  }

  lemma AddKeepsOthers(host: Host, c: Config, s: State, extra: set<nat>, cid: string, cn: string, ip: string,
                       up: Upstream, other: string, mark: int)
    requires Exact(host, c, s, s.tracked.Keys, extra)
    requires other != cid && Marks(s, other, mark)
    ensures Marks(AddTracked(host, s, cid, cn, ip, up, Added).0, other, mark)
  {
    var m := RuleOf(host, c, s, s.tracked.Keys, extra, other);
    AddKeepsMarks(host, s, cid, cn, ip, up, other, mark);
  }

  lemma InstallKeepsMarks(host: Host, c: Config, s: State, extra: set<nat>, cid: string, cn: string, ip: string,
                          up: Upstream, other: string, mark: int)
    requires Exact(host, c, s, s.tracked.Keys, extra)
    requires other != cid && Marks(s, other, mark)
    ensures Marks(InstallRule(host, s, cid, cn, ip, up, Added, true).0, other, mark)
  {
    AddKeepsOthers(host, c, s, extra, cid, cn, ip, up, other, mark);
    if cid in s.tracked && ClientAddr(host, ip).Some? {
      var n := RuleOf(host, c, s, s.tracked.Keys, extra, cid);
      var s1 := AddTracked(host, s, cid, cn, ip, up, Added).0;
      assert s1.kernel.nft.value.pre[n] == s.kernel.nft.value.pre[n];
      AddKeeps(host, s.(tracked := map[]), {}, cid, cn, ip, up, Added);
      RemoveKeepsMarks(s1, n, other, mark);
    }
  }

  lemma UninstallKeepsMarks(host: Host, c: Config, s: State, extra: set<nat>, cid: string, other: string, mark: int)
    requires Exact(host, c, s, s.tracked.Keys, extra)
    requires other != cid && Marks(s, other, mark)
    ensures Marks(UninstallRule(s, cid, true).0, other, mark)
  {
    if cid in s.tracked {
      var n := RuleOf(host, c, s, s.tracked.Keys, extra, cid);
      RemoveKeepsMarks(s, n, other, mark);
    }
  }

  // ----- Apply rebuilds agreement -----

  /** The table of the upstream that an overridden client is assigned. */
  ghost function AssignedTable(c: Config, cn: string): int
    requires cn in c.perCN && Find(c, c.perCN[cn]).Some?
  {
    Find(c, c.perCN[cn]).value.table
  }

  /** reinstall's outcome for one session: kept under a fresh handle and its assigned table, or dropped. */
  ghost predicate Reinstalled(s: State, s': State, c: Config, cid: string)
    requires cid in s.tracked && s.kernel.nft.Some?
  {
    var e := s.tracked[cid];
    && (cid in s'.tracked <==> e.cn in c.perCN && Find(c, c.perCN[e.cn]).Some?)
    && (cid in s'.tracked ==>
          && s'.tracked[cid] == TrackedRule(e.ip, e.cn, s'.tracked[cid].handle)
          && s'.tracked[cid].handle >= s.kernel.nft.value.next
          && Marks(s', cid, AssignedTable(c, e.cn)))
  }

  ghost predicate KeepsSession(s: State, s': State, cid: string) {
    && (cid in s'.tracked <==> cid in s.tracked)
    && (cid in s.tracked ==> s'.tracked[cid] == s.tracked[cid])
    && (forall m :: Marks(s, cid, m) ==> Marks(s', cid, m))
  }

  ghost predicate AllAdd(order: seq<string>, add: string -> AddOutcome) {
    forall i :: 0 <= i < |order| ==> add(order[i]).Added?
  }

  ghost predicate AddressesOk(host: Host, s: State) {
    forall cid :: cid in s.tracked ==> ClientAddr(host, s.tracked[cid].ip).Some?
  }

  lemma ReinstallOneExact(host: Host, c: Config, s: State, done: set<string>, cid: string)
    requires Exact(host, c, s, done, {}) && cid !in done && cid in s.tracked
    requires ClientAddr(host, s.tracked[cid].ip).Some?
    ensures var s' := ReinstallOne(host, s, cid, c, Added).0;
      && Exact(host, c, s', done + {cid}, {})
      && s'.kernel.nft.value.next >= s.kernel.nft.value.next
      && Reinstalled(s, s', c, cid)
      && (forall x :: x != cid ==> (x in s'.tracked <==> x in s.tracked))
      && (forall x :: x != cid && x in s.tracked ==> s'.tracked[x] == s.tracked[x])
  {
    var e := s.tracked[cid];
    var s' := ReinstallOne(host, s, cid, c, Added).0;
    if e.cn in c.perCN && Find(c, c.perCN[e.cn]).Some? {
      AddExact(host, c, s, done, {}, cid, e.cn, e.ip, Find(c, c.perCN[e.cn]).value);
    } else {
      var t, b := s.kernel.nft.value, |DefaultMark(c)|;
      Reframe(host, s, s', t, b, done, {});
      forall i | b <= i < |t.pre| ensures Owned(s', done + {cid}, t.pre[i].handle) {
        assert t.pre[i].handle !in {};
        var x :| x in done && x in s'.tracked && s'.tracked[x].handle == t.pre[i].handle;
        assert x in done + {cid};
      }
    }
  }

  lemma ReinstallOneKeeps(host: Host, c: Config, s: State, done: set<string>, cid: string, other: string)
    requires Exact(host, c, s, done, {}) && cid !in done && cid in s.tracked && other in done
    requires ClientAddr(host, s.tracked[cid].ip).Some?
    ensures KeepsSession(s, ReinstallOne(host, s, cid, c, Added).0, other)
  {
    var e := s.tracked[cid];
    if other in s.tracked && e.cn in c.perCN && Find(c, c.perCN[e.cn]).Some? {
      var n := RuleOf(host, c, s, done, {}, other);
      forall m | Marks(s, other, m) ensures Marks(ReinstallOne(host, s, cid, c, Added).0, other, m) {
        AddKeepsMarks(host, s, cid, e.cn, e.ip, Find(c, c.perCN[e.cn]).value, other, m);
      }
    }
  }

  /** Once its first session is done, the rest of the order is in shape for the rest of the loop. */
  lemma RestReady(host: Host, s: State, s1: State, done: set<string>, order: seq<string>, add: string -> AddOutcome)
    requires order != [] && Listed(order, s) && AllAdd(order, add) && AddressesOk(host, s)
    requires forall i :: 0 <= i < |order| ==> order[i] !in done
    requires forall cid :: cid in s.tracked ==> cid in done || cid in order
    requires forall x :: x != order[0] ==> (x in s1.tracked <==> x in s.tracked)
    requires forall x :: x != order[0] && x in s.tracked && x in s1.tracked ==> s1.tracked[x] == s.tracked[x]
    requires order[0] in s1.tracked ==> order[0] in s.tracked && s1.tracked[order[0]].ip == s.tracked[order[0]].ip
    ensures var cid, rest := order[0], order[1..];
      && Listed(rest, s1) && AllAdd(rest, add) && AddressesOk(host, s1)
      && (forall i :: 0 <= i < |rest| ==> rest[i] !in done + {cid})
      && (forall x :: x in s1.tracked ==> x in done + {cid} || x in rest)
      && (forall x :: x in order <==> x == cid || x in rest)
  {
    assert forall i :: 0 <= i < |order[1..]| ==> order[1..][i] == order[i + 1];
  }

  lemma {:induction false} ReinstallExact(host: Host, c: Config, s: State, done: set<string>, order: seq<string>,
                                          add: string -> AddOutcome)
    requires Listed(order, s) && AllAdd(order, add) && AddressesOk(host, s)
    requires Exact(host, c, s, done, {})
    requires forall i :: 0 <= i < |order| ==> order[i] !in done
    requires forall cid :: cid in s.tracked ==> cid in done || cid in order
    ensures var s' := Reinstall(host, s, order, c, add).0;
      && Exact(host, c, s', s'.tracked.Keys, {})
      && (forall cid :: cid in done ==> KeepsSession(s, s', cid))
      && (forall cid :: cid in order ==> Reinstalled(s, s', c, cid))
      && (forall cid :: cid in s'.tracked ==> cid in s.tracked)
    decreases |order|
  {
    var s' := Reinstall(host, s, order, c, add).0;
    if order == [] {
      assert forall cid :: cid in s.tracked ==> cid in done;
      Shrink(host, c, s, done);
    } else {
      var cid, rest := order[0], order[1..];
      var s1 := ReinstallOne(host, s, cid, c, add(cid)).0;
      ReinstallOneExact(host, c, s, done, cid);
      RestReady(host, s, s1, done, order, add);
      ReinstallExact(host, c, s1, done + {cid}, rest, add);
      forall x | x in done ensures KeepsSession(s, s', x) {
        ReinstallOneKeeps(host, c, s, done, cid, x);
        KeptTwice(s, s1, s', x);
      }
      forall x | x in order ensures Reinstalled(s, s', c, x) {
        if x == cid {
          ReinstalledThenKept(s, s1, s', c, cid);
        } else {
          ReinstalledLater(s, s1, s', c, x);
        }
      }
    }
  }

  lemma KeptTwice(s: State, s1: State, s': State, x: string)
    requires KeepsSession(s, s1, x) && KeepsSession(s1, s', x)
    ensures KeepsSession(s, s', x)
  {
  }

  lemma ReinstalledThenKept(s: State, s1: State, s': State, c: Config, x: string)
    requires x in s.tracked && s.kernel.nft.Some? && Reinstalled(s, s1, c, x) && KeepsSession(s1, s', x)
    ensures Reinstalled(s, s', c, x)
  {
  }

  lemma ReinstalledLater(s: State, s1: State, s': State, c: Config, x: string)
    requires x in s.tracked && x in s1.tracked && s1.tracked[x] == s.tracked[x]
    requires s.kernel.nft.Some? && s1.kernel.nft.Some? && s.kernel.nft.value.next <= s1.kernel.nft.value.next
    requires Reinstalled(s1, s', c, x)
    ensures Reinstalled(s, s', c, x)
  {
  }

  /** Agreement on a set that covers the tracked sessions is agreement on exactly those. */
  lemma Shrink(host: Host, c: Config, s: State, done: set<string>)
    requires Exact(host, c, s, done, {}) && forall cid :: cid in s.tracked ==> cid in done
    ensures Exact(host, c, s, s.tracked.Keys, {})
  {
    var t, b := s.kernel.nft.value, |DefaultMark(c)|;
    forall i | b <= i < |t.pre| ensures Owned(s, s.tracked.Keys, t.pre[i].handle) {
      assert t.pre[i].handle !in {};
      var x :| x in done && x in s.tracked && s.tracked[x].handle == t.pre[i].handle;
      assert x in s.tracked.Keys;
    }
  }

  /** The nft half of Apply went through: the old table is gone, the new one loaded, every rule re-added. */
  ghost predicate NftOk(s: State, o: Outcomes, order: seq<string>) {
    (o.deleteTable || s.kernel.nft.None?) && o.check && o.load && AllAdd(order, o.add)
  }

  function Loaded(host: Host, s: State, c: Config, o: Outcomes): State {
    s.(kernel := Rebuilt(s.kernel, c, o).(nft := Some(Load(None, RulesetOf(host, c)))))
  }

  lemma LoadedExact(host: Host, s: State, c: Config, o: Outcomes)
    ensures Exact(host, c, Loaded(host, s, c, o), {}, {})
  {
  }

  /** Apply, from any tracked table whatever its handles: the sessions still overridden are tracked, under
      fresh handles and with the right tables, the others are not, and chain and table agree again. */
  lemma ApplyExact(host: Host, s: State, c: Config, o: Outcomes, order: seq<string>)
    requires Valid(host, c) && IsOrder(order, s) && AddressesOk(host, s) && NftOk(s, o, order)
    ensures var (s', ok) := Apply(host, s, c, o, order);
      && Exact(host, c, s', s'.tracked.Keys, {})
      && (forall cid :: cid in s'.tracked ==> cid in s.tracked)
      && (forall cid :: cid in s.tracked ==> Reinstalled(Loaded(host, s, c, o), s', c, cid))
      && s'.kernel.routes == Rebuilt(s.kernel, c, o).routes && s'.kernel.rules == Rebuilt(s.kernel, c, o).rules
  {
    NoErrorIffValid(host, c);
    var swept := ExecAll(s.kernel, TeardownFrom(0), o.ip);
    ExecKeepsNft(s.kernel, TeardownFrom(0), o.ip);
    ExecKeepsNft(if o.deleteTable then swept.(nft := None) else swept, RouteCommands(c.upstreams), o.ip);
    var loaded := Loaded(host, s, c, o);
    assert Listed(order, loaded);
    LoadedExact(host, s, c, o);
    ReinstallExact(host, c, loaded, {}, order, o.add);
    ReinstallKeepsRoutes(host, loaded, order, c, o.add);
  }

  lemma {:induction false} ReinstallKeepsRoutes(host: Host, s: State, order: seq<string>, c: Config,
                                                add: string -> AddOutcome)
    requires Listed(order, s)
    ensures var k := Reinstall(host, s, order, c, add).0.kernel;
      k.routes == s.kernel.routes && k.rules == s.kernel.rules
    decreases |order|
  {
    if order != [] {
      ReinstallKeepsRoutes(host, ReinstallOne(host, s, order[0], c, add(order[0])).0, order[1..], c, add);
    }
  }

  // ----- agreement decides every packet's mark -----

  ghost predicate Holds(host: Host, s: State, cid: string, src: nat) {
    cid in s.tracked && ClientAddr(host, s.tracked[cid].ip) == Some(src)
  }

  /** The extra rules that match p: none. */
  ghost predicate ExtraMiss(c: Config, s: State, extra: set<nat>, p: Packet) {
    s.kernel.nft.Some? && var pre := s.kernel.nft.value.pre;
    forall n :: |DefaultMark(c)| <= n < |pre| && pre[n].handle in extra ==> !Matches(pre[n].rule, p)
  }

  /** A client rule that matches p is a tracked session's, for p's source address. */
  lemma MatchHolds(host: Host, c: Config, s: State, extra: set<nat>, n: nat, p: Packet) returns (x: string)
    requires Exact(host, c, s, s.tracked.Keys, extra) && ExtraMiss(c, s, extra, p)
    requires |DefaultMark(c)| <= n < |s.kernel.nft.value.pre| && Matches(s.kernel.nft.value.pre[n].rule, p)
    ensures Holds(host, s, x, p.src) && RuleAt(host, s.kernel.nft.value, n, s.tracked[x])
  {
    var pre := s.kernel.nft.value.pre;
    assert Owned(s, s.tracked.Keys, pre[n].handle);
    x :| x in s.tracked.Keys && x in s.tracked && s.tracked[x].handle == pre[n].handle;
    var m := RuleOf(host, c, s, s.tracked.Keys, extra, x);
    assert m == n;
  }

  /** A tunnel packet from the address of one tracked session carries the mark of that session's rule:
      per-client rules come after the default rule, so they win. */
  lemma SessionMark(host: Host, c: Config, s: State, extra: set<nat>, cid: string, mark: int, p: Packet)
    requires Exact(host, c, s, s.tracked.Keys, extra) && ExtraMiss(c, s, extra, p) && Marks(s, cid, mark)
    requires p.iif == TUN_DEV && Holds(host, s, cid, p.src)
    requires forall x :: Holds(host, s, x, p.src) ==> x == cid
    ensures MarkOf(s.kernel, p) == mark
  {
    var pre := s.kernel.nft.value.pre;
    var n := RuleOf(host, c, s, s.tracked.Keys, extra, cid);
    forall j | |DefaultMark(c)| <= j < |pre| && Matches(pre[j].rule, p) ensures j == n {
      var x := MatchHolds(host, c, s, extra, j, p);
    }
    LastMatchWins(pre, n, p, 0);
  }

  /** A tunnel packet from no tracked session's address carries the default upstream's mark, or 0. */
  lemma DefaultPacketMark(host: Host, c: Config, s: State, extra: set<nat>, p: Packet)
    requires Exact(host, c, s, s.tracked.Keys, extra) && ExtraMiss(c, s, extra, p)
    requires p.iif == TUN_DEV && forall x :: !Holds(host, s, x, p.src)
    ensures MarkOf(s.kernel, p) == DefaultMarkValue(c)
  {
    var pre, b := s.kernel.nft.value.pre, |DefaultMark(c)|;
    forall j | b <= j < |pre| ensures !Matches(pre[j].rule, p) {
      if Matches(pre[j].rule, p) {
        var x := MatchHolds(host, c, s, extra, j, p);
      }
    }
    if b == 0 {
      RunChainNoMatch(pre, p, 0);
    } else {
      LastMatchWins(pre, 0, p, 0);
    }
  }

  /** What the default rule marks tunnel traffic with; 0 without one. */
  function DefaultMarkValue(c: Config): int {
    if DefaultMark(c) == [] then 0 else DefaultMark(c)[0].mark
  }

  /** Traffic that did not arrive on the tunnel is never marked, whatever its source address. */
  lemma ForeignPacketUnmarked(host: Host, c: Config, s: State, extra: set<nat>, p: Packet)
    requires Exact(host, c, s, s.tracked.Keys, extra) && ExtraMiss(c, s, extra, p) && p.iif != TUN_DEV
    ensures MarkOf(s.kernel, p) == 0
  {
    var pre, b := s.kernel.nft.value.pre, |DefaultMark(c)|;
    forall j | 0 <= j < |pre| ensures !Matches(pre[j].rule, p) {
      if b <= j && Matches(pre[j].rule, p) {
        var x := MatchHolds(host, c, s, extra, j, p);
      }
    }
    RunChainNoMatch(pre, p, 0);
  }

  /** The rebuilt chain treats every packet alike whatever order the tracked map was ranged over in,
      as long as no two tracked sessions share an address. */
  lemma OrderDoesNotMatter(host: Host, s: State, c: Config, o: Outcomes, order: seq<string>, order': seq<string>,
                           p: Packet)
    requires Valid(host, c) && AddressesOk(host, s)
    requires IsOrder(order, s) && NftOk(s, o, order) && IsOrder(order', s) && NftOk(s, o, order')
    requires forall x, y :: x in s.tracked && y in s.tracked && x != y ==>
      ClientAddr(host, s.tracked[x].ip) != ClientAddr(host, s.tracked[y].ip)
    ensures MarkOf(Apply(host, s, c, o, order).0.kernel, p) == MarkOf(Apply(host, s, c, o, order').0.kernel, p)
  {
    var s1, s2, loaded := Apply(host, s, c, o, order).0, Apply(host, s, c, o, order').0, Loaded(host, s, c, o);
    ApplyExact(host, s, c, o, order);
    ApplyExact(host, s, c, o, order');
    forall x ensures Holds(host, s1, x, p.src) <==> Holds(host, s2, x, p.src) {
      if x in s.tracked {
        assert Reinstalled(loaded, s1, c, x) && Reinstalled(loaded, s2, c, x);
      }
    }
    if p.iif != TUN_DEV {
      ForeignPacketUnmarked(host, c, s1, {}, p);
      ForeignPacketUnmarked(host, c, s2, {}, p);
    } else if cid :| Holds(host, s1, cid, p.src) {
      assert Reinstalled(loaded, s1, c, cid) && Reinstalled(loaded, s2, c, cid);
      forall x | Holds(host, s1, x, p.src) ensures x == cid {
        assert Reinstalled(loaded, s1, c, x);
      }
      var mark := AssignedTable(c, s.tracked[cid].cn);
      SessionMark(host, c, s1, {}, cid, mark, p);
      SessionMark(host, c, s2, {}, cid, mark, p);
    } else {
      DefaultPacketMark(host, c, s1, {}, p);
      DefaultPacketMark(host, c, s2, {}, p);
    }
  }
}
