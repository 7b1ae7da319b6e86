/**
 Every rule of the mark chain accounted for, in any run whose nft commands
 succeed: it is the default's, or a tracked entry's, or an orphan that no entry
 names any more. Each operation keeps the account; the account decides every
 packet's mark.
 */
module RuleAccounts {
  import opened Wrappers
  import opened UpstreamConfig
  import opened Netfilter
  import opened Egress
  import opened RuleSafety
  import opened TrackerAgreement

  /** What the chain holds beside c's compiled ruleset: given has the table each tracked entry's rule was
      made for, orphans the handle, source address and table of each rule whose entry was overwritten. */
  datatype Account = Account(given: map<string, int>, orphans: map<nat, Orphan>)

  datatype Orphan = Orphan(addr: nat, table: int)

  function Addr(host: Host, ip: string): nat {
    match ClientAddr(host, ip) case Some(a) => a case None => 0
  }

  /** The upstream that configuration c assigns a client by name. */
  function Assigned(c: Config, cn: string): Option<Upstream> {
    if cn in c.perCN then Find(c, c.perCN[cn]) else None
  }

  function TableFor(c: Config, cn: string): int {
    match Assigned(c, cn) case Some(u) => u.table case None => 0
  }

  ghost predicate InChain(t: Table, b: nat, h: nat) {
    exists n :: b <= n < |t.pre| && t.pre[n].handle == h
  }

  /** Every orphan is a client rule of the chain, as recorded. */
  ghost predicate OrphansKnown(t: Table, b: nat, orphans: map<nat, Orphan>) {
    && (forall n :: b <= n < |t.pre| && t.pre[n].handle in orphans ==>
          var orphan := orphans[t.pre[n].handle];
          t.pre[n].rule == MarkRule(TUN_DEV, Some(orphan.addr), orphan.table))
    && (forall h :: h in orphans ==> h < t.next && InChain(t, b, h))
  }

  /** No tracked entry names an orphan. */
  ghost predicate NotOrphaned(s: State, orphans: map<nat, Orphan>) {
    forall cid :: cid in s.tracked ==> s.tracked[cid].handle !in orphans
  }

  ghost predicate Accounted(host: Host, c: Config, s: State, a: Account) {
    && Exact(host, c, s, s.tracked.Keys, a.orphans.Keys)
    && OrphansKnown(s.kernel.nft.value, |DefaultMark(c)|, a.orphans) && NotOrphaned(s, a.orphans)
    && a.given.Keys == s.tracked.Keys
    && (forall cid :: cid in s.tracked ==> Marks(s, cid, a.given[cid]))
  }

  // ----- what the operations do to the account -----

  /** A rule added for cid: its entry is overwritten if it had one, and that entry's rule orphaned. */
  function WithRule(host: Host, s: State, a: Account, cid: string, table: int): Account {
    Account(a.given[cid := table],
            if cid in s.tracked && cid in a.given then
              a.orphans[s.tracked[cid].handle := Orphan(Addr(host, s.tracked[cid].ip), a.given[cid])]
            else a.orphans)
  }

  function WithoutEntry(a: Account, cid: string): Account {
    Account(a.given - {cid}, a.orphans)
  }

  lemma OrphansAfterAppend(host: Host, t: Table, t': Table, b: nat, orphans: map<nat, Orphan>, e: TrackedRule)
    requires OrphansKnown(t, b, orphans) && b <= |t.pre| && Appended(host, t, t', e)
    ensures OrphansKnown(t', b, orphans)
  {
    forall h | h in orphans ensures InChain(t', b, h) {
      assert InChain(t, b, h);
      var n :| b <= n < |t.pre| && t.pre[n].handle == h;
      assert t'.pre[n] == t.pre[n];
    }
  }

  lemma OrphanAdded(host: Host, t: Table, b: nat, orphans: map<nat, Orphan>, n: nat, e: TrackedRule, table: int)
    requires OrphansKnown(t, b, orphans) && Chain(t) && b <= n && RuleAt(host, t, n, e) && t.pre[n].rule.mark == table
    ensures OrphansKnown(t, b, orphans[e.handle := Orphan(Addr(host, e.ip), table)])
  {
    assert InChain(t, b, e.handle);
  }

  lemma OrphansAfterDrop(t: Table, b: nat, orphans: map<nat, Orphan>, n: nat)
    requires OrphansKnown(t, b, orphans) && b <= n < |t.pre| && t.pre[n].handle !in orphans
    ensures OrphansKnown(Without1(t, n), b, orphans)
  {
    var t' := Without1(t, n);
    assert forall i :: 0 <= i < |t'.pre| ==> t'.pre[i] == if i < n then t.pre[i] else t.pre[i + 1];
    forall h | h in orphans ensures InChain(t', b, h) {
      assert InChain(t, b, h);
      var m :| b <= m < |t.pre| && t.pre[m].handle == h;
      assert t'.pre[if m < n then m else m - 1].handle == h;
    }
  }

  lemma AddOrphans(host: Host, c: Config, s: State, a: Account, cid: string, cn: string, ip: string, up: Upstream)
    requires Accounted(host, c, s, a) && ClientAddr(host, ip).Some?
    ensures var s' := AddTracked(host, s, cid, cn, ip, up, Added).0;
      && s'.kernel.nft.Some?
      && OrphansKnown(s'.kernel.nft.value, |DefaultMark(c)|, WithRule(host, s, a, cid, up.table).orphans)
  {
    var s', t, b := AddTracked(host, s, cid, cn, ip, up, Added).0, s.kernel.nft.value, |DefaultMark(c)|;
    AddAppends(host, s, cid, cn, ip, up);
    if cid in s.tracked {
      var n := RuleOf(host, c, s, s.tracked.Keys, a.orphans.Keys, cid);
      OrphanAdded(host, t, b, a.orphans, n, s.tracked[cid], a.given[cid]);
    }
    OrphansAfterAppend(host, t, s'.kernel.nft.value, b, WithRule(host, s, a, cid, up.table).orphans, s'.tracked[cid]);
  }

  lemma AddedState(host: Host, s: State, cid: string, cn: string, ip: string, up: Upstream)
    requires s.kernel.nft.Some? && ClientAddr(host, ip).Some?
    ensures var (s', ok) := AddTracked(host, s, cid, cn, ip, up, Added);
      && ok && s'.tracked == s.tracked[cid := TrackedRule(ip, cn, s.kernel.nft.value.next)]
      && s'.tracked.Keys == s.tracked.Keys + {cid}
      && s'.kernel.routes == s.kernel.routes && s'.kernel.rules == s.kernel.rules
  {
  }

  lemma OrphanKeys(host: Host, s: State, a: Account, cid: string, table: int)
    requires a.given.Keys == s.tracked.Keys
    ensures WithRule(host, s, a, cid, table).orphans.Keys
      == if cid in s.tracked then a.orphans.Keys + {s.tracked[cid].handle} else a.orphans.Keys
  {
  }

  lemma AddKeepsExact(host: Host, c: Config, s: State, a: Account, cid: string, cn: string, ip: string, up: Upstream)
    requires Accounted(host, c, s, a) && ClientAddr(host, ip).Some?
    ensures var s', a' := AddTracked(host, s, cid, cn, ip, up, Added).0, WithRule(host, s, a, cid, up.table);
      Exact(host, c, s', s.tracked.Keys + {cid}, a'.orphans.Keys) && Marks(s', cid, up.table)
  {
    OrphanKeys(host, s, a, cid, up.table);
    AddExactly(host, c, s, a.orphans.Keys, cid, cn, ip, up);
  }

  lemma AddExactly(host: Host, c: Config, s: State, extra: set<nat>, cid: string, cn: string, ip: string, up: Upstream)
    requires Exact(host, c, s, s.tracked.Keys, extra) && ClientAddr(host, ip).Some?
    ensures var s' := AddTracked(host, s, cid, cn, ip, up, Added).0;
      && Exact(host, c, s', s.tracked.Keys + {cid}, if cid in s.tracked then extra + {s.tracked[cid].handle} else extra)
      && Marks(s', cid, up.table)
  {
    if cid in s.tracked {
      OverwriteExact(host, c, s, extra, cid, cn, ip, up);
      assert s.tracked.Keys + {cid} == s.tracked.Keys;
    } else {
      AddExact(host, c, s, s.tracked.Keys, extra, cid, cn, ip, up);
    }
  }

  lemma AddKeepsGiven(host: Host, c: Config, s: State, a: Account, cid: string, cn: string, ip: string, up: Upstream)
    requires Accounted(host, c, s, a)
    ensures forall x :: x in s.tracked && x != cid ==>
      Marks(AddTracked(host, s, cid, cn, ip, up, Added).0, x, a.given[x])
  {
    forall x | x in s.tracked && x != cid ensures Marks(AddTracked(host, s, cid, cn, ip, up, Added).0, x, a.given[x]) {
      AddKeepsOthers(host, c, s, a.orphans.Keys, cid, cn, ip, up, x, a.given[x]);
    }
  }

  /** The new rule's handle is a fresh one, and an overwritten entry's old handle is nobody else's. */
  lemma AddNotOrphaned(host: Host, c: Config, s: State, a: Account, s': State, cid: string, table: int)
    requires Accounted(host, c, s, a)
    requires cid in s'.tracked && s'.tracked == s.tracked[cid := s'.tracked[cid]]
    requires s'.tracked[cid].handle == s.kernel.nft.value.next
    ensures NotOrphaned(s', WithRule(host, s, a, cid, table).orphans) && NotOrphaned(s', a.orphans)
  {
    if cid in s.tracked {
      var n := RuleOf(host, c, s, s.tracked.Keys, a.orphans.Keys, cid);
    }
  }

  /** One entry more, or one changed. */
  lemma EntryAccounted(host: Host, c: Config, s: State, a: Account, s': State, a': Account, cid: string, table: int)
    requires a.given.Keys == s.tracked.Keys && a'.given == a.given[cid := table]
    requires s'.tracked.Keys == s.tracked.Keys + {cid}
    requires Exact(host, c, s', s.tracked.Keys + {cid}, a'.orphans.Keys)
    requires OrphansKnown(s'.kernel.nft.value, |DefaultMark(c)|, a'.orphans) && NotOrphaned(s', a'.orphans)
    requires Marks(s', cid, table) && forall x :: x in s.tracked && x != cid ==> Marks(s', x, a.given[x])
    ensures Accounted(host, c, s', a')
  {
    assert a'.given.Keys == s'.tracked.Keys;
  }

  lemma AddAccounted(host: Host, c: Config, s: State, a: Account, cid: string, cn: string, ip: string, up: Upstream)
    requires Accounted(host, c, s, a) && ClientAddr(host, ip).Some?
    ensures Accounted(host, c, AddTracked(host, s, cid, cn, ip, up, Added).0, WithRule(host, s, a, cid, up.table))
  {
    AddedState(host, s, cid, cn, ip, up);
    AddOrphans(host, c, s, a, cid, cn, ip, up);
    AddKeepsExact(host, c, s, a, cid, cn, ip, up);
    AddKeepsGiven(host, c, s, a, cid, cn, ip, up);
    AddNotOrphaned(host, c, s, a, AddTracked(host, s, cid, cn, ip, up, Added).0, cid, up.table);
    EntryAccounted(host, c, s, a, AddTracked(host, s, cid, cn, ip, up, Added).0,
                   WithRule(host, s, a, cid, up.table), cid, up.table);
  }

  lemma UninstallAccounted(host: Host, c: Config, s: State, a: Account, cid: string)
    requires Accounted(host, c, s, a)
    ensures var s' := UninstallRule(s, cid, true).0;
      && Accounted(host, c, s', WithoutEntry(a, cid))
      && s'.tracked == s.tracked - {cid}
      && s'.kernel.routes == s.kernel.routes && s'.kernel.rules == s.kernel.rules
  {
    var s' := UninstallRule(s, cid, true).0;
    UninstallExact(host, c, s, a.orphans.Keys, cid);
    if cid in s.tracked {
      var n := RuleOf(host, c, s, s.tracked.Keys, a.orphans.Keys, cid);
      RemoveAt(s.kernel, n);
      OrphansAfterDrop(s.kernel.nft.value, |DefaultMark(c)|, a.orphans, n);
    }
    forall x | x in s'.tracked ensures Marks(s', x, a.given[x]) {
      UninstallKeepsMarks(host, c, s, a.orphans.Keys, cid, x, a.given[x]);
    }
  }

  lemma InstallOrphans(host: Host, c: Config, s: State, a: Account, cid: string, cn: string, ip: string, up: Upstream)
    requires Accounted(host, c, s, a) && ClientAddr(host, ip).Some? && cid in s.tracked
    ensures var s' := InstallRule(host, s, cid, cn, ip, up, Added, true).0;
      s'.kernel.nft.Some? && OrphansKnown(s'.kernel.nft.value, |DefaultMark(c)|, a.orphans)
  {
    var t, b := s.kernel.nft.value, |DefaultMark(c)|;
    var s1 := AddTracked(host, s, cid, cn, ip, up, Added).0;
    AddAppends(host, s, cid, cn, ip, up);
    OrphansAfterAppend(host, t, s1.kernel.nft.value, b, a.orphans, s1.tracked[cid]);
    var n := RuleOf(host, c, s, s.tracked.Keys, a.orphans.Keys, cid);
    assert s1.kernel.nft.value.pre[n] == t.pre[n];
    RemoveAt(s1.kernel, n);
    OrphansAfterDrop(s1.kernel.nft.value, b, a.orphans, n);
  }

  lemma InstalledState(host: Host, s: State, cid: string, cn: string, ip: string, up: Upstream)
    requires s.kernel.nft.Some? && ClientAddr(host, ip).Some?
    ensures var s' := InstallRule(host, s, cid, cn, ip, up, Added, true).0;
      && s'.tracked == s.tracked[cid := TrackedRule(ip, cn, s.kernel.nft.value.next)]
      && s'.tracked.Keys == s.tracked.Keys + {cid}
      && s'.kernel.routes == s.kernel.routes && s'.kernel.rules == s.kernel.rules
  {
  }

  lemma ReplaceKeepsGiven(host: Host, c: Config, s: State, a: Account, cid: string, cn: string, ip: string,
                          up: Upstream)
    requires Accounted(host, c, s, a)
    ensures forall x :: x in s.tracked && x != cid ==>
      Marks(InstallRule(host, s, cid, cn, ip, up, Added, true).0, x, a.given[x])
  {
    forall x | x in s.tracked && x != cid
      ensures Marks(InstallRule(host, s, cid, cn, ip, up, Added, true).0, x, a.given[x])
    {
      InstallKeepsMarks(host, c, s, a.orphans.Keys, cid, cn, ip, up, x, a.given[x]);
    }
  }

  /** Replacing a rule orphans nothing: the old one goes. */
  lemma ReplaceAccounted(host: Host, c: Config, s: State, a: Account, cid: string, cn: string, ip: string, up: Upstream)
    requires Accounted(host, c, s, a) && ClientAddr(host, ip).Some? && cid in s.tracked
    ensures Accounted(host, c, InstallRule(host, s, cid, cn, ip, up, Added, true).0,
                      Account(a.given[cid := up.table], a.orphans))
  {
    InstalledState(host, s, cid, cn, ip, up);
    InstallExact(host, c, s, a.orphans.Keys, cid, cn, ip, up);
    InstallOrphans(host, c, s, a, cid, cn, ip, up);
    ReplaceKeepsGiven(host, c, s, a, cid, cn, ip, up);
    AddNotOrphaned(host, c, s, a, InstallRule(host, s, cid, cn, ip, up, Added, true).0, cid, up.table);
    EntryAccounted(host, c, s, a, InstallRule(host, s, cid, cn, ip, up, Added, true).0,
                   Account(a.given[cid := up.table], a.orphans), cid, up.table);
  }

  lemma InstallAccounted(host: Host, c: Config, s: State, a: Account, cid: string, cn: string, ip: string, up: Upstream)
    requires Accounted(host, c, s, a) && ClientAddr(host, ip).Some?
    ensures Accounted(host, c, InstallRule(host, s, cid, cn, ip, up, Added, true).0,
                      Account(a.given[cid := up.table], a.orphans))
  {
    if cid in s.tracked {
      ReplaceAccounted(host, c, s, a, cid, cn, ip, up);
    } else {
      AddAccounted(host, c, s, a, cid, cn, ip, up);
    }
  }

  lemma {:induction false} ClearAllAccounted(host: Host, c: Config, s: State, a: Account, order: seq<string>)
    requires Accounted(host, c, s, a) && forall cid :: cid in s.tracked ==> cid in order
    ensures var s' := ClearAll(s, order, _ => true);
      && Accounted(host, c, s', Account(map[], a.orphans)) && s'.tracked == map[]
      && s'.kernel.routes == s.kernel.routes && s'.kernel.rules == s.kernel.rules
    decreases |order|
  {
    if order != [] {
      UninstallAccounted(host, c, s, a, order[0]);
      assert forall cid :: cid in order <==> cid == order[0] || cid in order[1..];
      ClearAllAccounted(host, c, UninstallRule(s, order[0], true).0, WithoutEntry(a, order[0]), order[1..]);
    } else {
      assert s.tracked == map[];
      assert a.given == map[];
    }
  }

  /** Apply starts a new account: no orphans, and each entry's rule for the table its client is assigned now. */
  function Reopened(c: Config, s': State): Account {
    Account(map cid | cid in s'.tracked :: TableFor(c, s'.tracked[cid].cn), map[])
  }

  lemma ApplyAccounted(host: Host, s: State, c: Config, o: Outcomes, order: seq<string>)
    requires Valid(host, c) && IsOrder(order, s) && AddressesOk(host, s) && NftOk(s, o, order)
    ensures var s' := Apply(host, s, c, o, order).0;
      && Accounted(host, c, s', Reopened(c, s'))
      && (forall cid :: cid in s'.tracked <==> cid in s.tracked && s.tracked[cid].cn in c.perCN)
      && (forall cid :: cid in s'.tracked ==>
            s'.tracked[cid].cn == s.tracked[cid].cn && s'.tracked[cid].ip == s.tracked[cid].ip)
  {
    var s', loaded := Apply(host, s, c, o, order).0, Loaded(host, s, c, o);
    ApplyExact(host, s, c, o, order);
    forall cid | cid in s.tracked
      ensures cid in s'.tracked <==> s.tracked[cid].cn in c.perCN
      ensures cid in s'.tracked ==> s'.tracked[cid].cn == s.tracked[cid].cn && s'.tracked[cid].ip == s.tracked[cid].ip
      ensures cid in s'.tracked ==> Marks(s', cid, TableFor(c, s'.tracked[cid].cn))
    {
      assert Reinstalled(loaded, s', c, cid);
      ResolvesToDefined(host, c, s.tracked[cid].cn);
    }
    assert Reopened(c, s').orphans.Keys == {};
  }

  // ----- the account decides every packet's mark -----

  ghost predicate OrphanAt(a: Account, src: nat) {
    exists h :: h in a.orphans && a.orphans[h].addr == src
  }

  lemma OrphansMiss(host: Host, c: Config, s: State, a: Account, p: Packet)
    requires Accounted(host, c, s, a) && (p.iif != TUN_DEV || !OrphanAt(a, p.src))
    ensures ExtraMiss(c, s, a.orphans.Keys, p)
  {
  }

  /** The address of one tracked entry and no orphan: that entry's table, whoever holds the address now. */
  lemma EntryMark(host: Host, c: Config, s: State, a: Account, cid: string, p: Packet)
    requires Accounted(host, c, s, a) && p.iif == TUN_DEV && !OrphanAt(a, p.src)
    requires Holds(host, s, cid, p.src) && forall x :: Holds(host, s, x, p.src) ==> x == cid
    ensures MarkOf(s.kernel, p) == a.given[cid]
  {
    OrphansMiss(host, c, s, a, p);
    SessionMark(host, c, s, a.orphans.Keys, cid, a.given[cid], p);
  }

  /** The address of no tracked entry and no orphan: the default's mark. */
  lemma NoEntryMark(host: Host, c: Config, s: State, a: Account, p: Packet)
    requires Accounted(host, c, s, a) && p.iif == TUN_DEV && !OrphanAt(a, p.src)
    requires forall x :: !Holds(host, s, x, p.src)
    ensures MarkOf(s.kernel, p) == DefaultMarkValue(c)
  {
    OrphansMiss(host, c, s, a, p);
    DefaultPacketMark(host, c, s, a.orphans.Keys, p);
  }

  /** The rule with handle h, a tracked entry's or an orphan, marks packets from src with m. */
  ghost predicate RuleFor(host: Host, s: State, a: Account, src: nat, h: nat, m: int) {
    || (h in a.orphans && a.orphans[h] == Orphan(src, m))
    || EntryFor(host, s, a, src, h, m)
  }

  ghost predicate EntryFor(host: Host, s: State, a: Account, src: nat, h: nat, m: int) {
    exists cid :: Holds(host, s, cid, src) && cid in a.given && s.tracked[cid].handle == h && a.given[cid] == m
  }

  /** And it is the latest such rule. */
  ghost predicate Decides(host: Host, s: State, a: Account, src: nat, h: nat, m: int) {
    RuleFor(host, s, a, src, h, m) && forall h': nat, m' :: RuleFor(host, s, a, src, h', m') ==> h' <= h
  }

  /** Rule for rule: an entry of the account is a rule of the chain, */
  lemma RuleIndex(host: Host, c: Config, s: State, a: Account, h: nat, m: int, p: Packet) returns (n: nat)
    requires Accounted(host, c, s, a) && p.iif == TUN_DEV && RuleFor(host, s, a, p.src, h, m)
    ensures |DefaultMark(c)| <= n < |s.kernel.nft.value.pre| && s.kernel.nft.value.pre[n].handle == h
    ensures Matches(s.kernel.nft.value.pre[n].rule, p) && s.kernel.nft.value.pre[n].rule.mark == m
  {
    var t, b := s.kernel.nft.value, |DefaultMark(c)|;
    if h in a.orphans && a.orphans[h] == Orphan(p.src, m) {
      assert InChain(t, b, h);
      n :| b <= n < |t.pre| && t.pre[n].handle == h;
    } else {
      var cid :| Holds(host, s, cid, p.src) && cid in a.given && s.tracked[cid].handle == h && a.given[cid] == m;
      n := RuleOf(host, c, s, s.tracked.Keys, a.orphans.Keys, cid);
    }
  }

  /** and a client rule that matches is an entry of the account. */
  lemma IndexedRule(host: Host, c: Config, s: State, a: Account, n: nat, p: Packet)
    requires Accounted(host, c, s, a)
    requires |DefaultMark(c)| <= n < |s.kernel.nft.value.pre| && Matches(s.kernel.nft.value.pre[n].rule, p)
    ensures RuleFor(host, s, a, p.src, s.kernel.nft.value.pre[n].handle, s.kernel.nft.value.pre[n].rule.mark)
  {
    var pre := s.kernel.nft.value.pre;
    if pre[n].handle !in a.orphans {
      assert Owned(s, s.tracked.Keys, pre[n].handle);
      var cid :| cid in s.tracked.Keys && cid in s.tracked && s.tracked[cid].handle == pre[n].handle;
      var m := RuleOf(host, c, s, s.tracked.Keys, a.orphans.Keys, cid);
      assert m == n;
      assert Holds(host, s, cid, p.src) && a.given[cid] == pre[n].rule.mark;
    }
  }

  /** Every handle on the account was given out already. */
  lemma HandlesBelowNext(host: Host, c: Config, s: State, a: Account)
    requires Accounted(host, c, s, a)
    ensures forall cid :: cid in s.tracked ==> s.tracked[cid].handle < s.kernel.nft.value.next
    ensures forall h :: h in a.orphans ==> h < s.kernel.nft.value.next
  {
    forall cid | cid in s.tracked ensures s.tracked[cid].handle < s.kernel.nft.value.next {
      var n := RuleOf(host, c, s, s.tracked.Keys, a.orphans.Keys, cid);
    }
  }

  /** So a rule just added is the one that decides for its address, whatever other rules there are for it. */
  lemma NewRuleDecides(host: Host, c: Config, s: State, a: Account, s': State, a': Account, cid: string, src: nat)
    requires Accounted(host, c, s, a) && cid in s'.tracked && s'.tracked == s.tracked[cid := s'.tracked[cid]]
    requires s'.tracked[cid].handle == s.kernel.nft.value.next && Holds(host, s', cid, src)
    requires cid in a'.given && a'.given == a.given[cid := a'.given[cid]]
    requires a'.orphans.Keys <= a.orphans.Keys + (if cid in s.tracked then {s.tracked[cid].handle} else {})
    ensures Decides(host, s', a', src, s.kernel.nft.value.next, a'.given[cid])
  {
    HandlesBelowNext(host, c, s, a);
    assert EntryFor(host, s', a', src, s.kernel.nft.value.next, a'.given[cid]);
    forall h: nat, m | RuleFor(host, s', a', src, h, m) ensures h <= s.kernel.nft.value.next {
      if h in a'.orphans {
        assert h in a.orphans || (cid in s.tracked && h == s.tracked[cid].handle);
      }
    }
  }

  /** The latest rule for an address decides, whosever it is. */
  lemma DecidedMark(host: Host, c: Config, s: State, a: Account, h: nat, m: int, p: Packet)
    requires Accounted(host, c, s, a) && p.iif == TUN_DEV && Decides(host, s, a, p.src, h, m)
    ensures MarkOf(s.kernel, p) == m
  {
    var pre := s.kernel.nft.value.pre;
    var n := RuleIndex(host, c, s, a, h, m, p);
    forall j | |DefaultMark(c)| <= j < |pre| && Matches(pre[j].rule, p) ensures j <= n {
      IndexedRule(host, c, s, a, j, p);
    }
    LastMatchWins(pre, n, p, 0);
  }

  lemma {:induction false} LastMatch(pre: seq<Entry>, b: nat, end: nat, p: Packet) returns (n: nat)
    requires b <= end <= |pre|
    ensures b <= n <= end && forall j :: n < j < end ==> !Matches(pre[j].rule, p)
    ensures n < end ==> Matches(pre[n].rule, p)
    ensures n == end ==> forall j :: b <= j < end ==> !Matches(pre[j].rule, p)
    decreases end
  {
    if b == end {
      n := end;
    } else if Matches(pre[end - 1].rule, p) {
      n := end - 1;
    } else {
      var m := LastMatch(pre, b, end - 1, p);
      n := if m == end - 1 then end else m;
    }
  }

  /** For every address some rule decides, or there is none for it. */
  lemma SomeRuleDecides(host: Host, c: Config, s: State, a: Account, src: nat) returns (d: Option<(nat, int)>)
    requires Accounted(host, c, s, a)
    ensures match d
            case Some((h, m)) => Decides(host, s, a, src, h, m)
            case None => forall h: nat, m :: !RuleFor(host, s, a, src, h, m)
  {
    var pre, p := s.kernel.nft.value.pre, Packet(TUN_DEV, src, true);
    var n := LastMatch(pre, |DefaultMark(c)|, |pre|, p);
    if n == |pre| {
      forall h: nat, m ensures !RuleFor(host, s, a, src, h, m) {
        if RuleFor(host, s, a, src, h, m) {
          var k := RuleIndex(host, c, s, a, h, m, p);
          assert false;
        }
      }
      return None;
    }
    IndexedRule(host, c, s, a, n, p);
    forall h: nat, m | RuleFor(host, s, a, src, h, m) ensures h <= pre[n].handle {
      var k := RuleIndex(host, c, s, a, h, m, p);
      assert k <= n;
    }
    return Some((pre[n].handle, pre[n].rule.mark));
  }

  lemma HoldersHaveRules(host: Host, c: Config, s: State, a: Account, src: nat)
    requires Accounted(host, c, s, a)
    ensures forall x :: Holds(host, s, x, src) ==> exists h: nat, m :: RuleFor(host, s, a, src, h, m)
  {
    forall x | Holds(host, s, x, src) ensures exists h: nat, m :: RuleFor(host, s, a, src, h, m) {
      assert RuleFor(host, s, a, src, s.tracked[x].handle, a.given[x]);
    }
  }

  lemma NoRuleMark(host: Host, c: Config, s: State, a: Account, p: Packet)
    requires Accounted(host, c, s, a) && p.iif == TUN_DEV && forall h: nat, m :: !RuleFor(host, s, a, p.src, h, m)
    ensures MarkOf(s.kernel, p) == DefaultMarkValue(c)
  {
    forall h | h in a.orphans ensures a.orphans[h].addr != p.src {
      assert !RuleFor(host, s, a, p.src, h, a.orphans[h].table);
    }
    HoldersHaveRules(host, c, s, a, p.src);
    NoEntryMark(host, c, s, a, p);
  }

  lemma OffTunnelMark(host: Host, c: Config, s: State, a: Account, p: Packet)
    requires Accounted(host, c, s, a) && p.iif != TUN_DEV
    ensures MarkOf(s.kernel, p) == 0
  {
    OrphansMiss(host, c, s, a, p);
    ForeignPacketUnmarked(host, c, s, a.orphans.Keys, p);
  }

  // ----- a rule that no entry names -----

  ghost predicate Unowned(s: State, e: Entry) {
    && s.kernel.nft.Some? && e in s.kernel.nft.value.pre
    && forall cid :: cid in s.tracked ==> s.tracked[cid].handle != e.handle
  }

  lemma RemovalSpares(s: State, s': State, handle: nat, e: Entry)
    requires Unowned(s, e) && Chain(s.kernel.nft.value) && handle != e.handle
    requires s'.kernel == RemoveRule(s.kernel, handle, true).0
    requires forall cid :: cid in s'.tracked ==> s'.tracked[cid].handle != e.handle
    ensures Unowned(s', e)
  {
    DropHandleExact(s.kernel.nft.value.pre, handle);
  }

  /** An entry overwritten: its rule is still there, and no entry names it. */
  lemma AddOrphansOld(host: Host, c: Config, s: State, a: Account, cid: string, cn: string, ip: string, up: Upstream)
    returns (e: Entry)
    requires Accounted(host, c, s, a) && ClientAddr(host, ip).Some? && cid in s.tracked
    ensures e.handle == s.tracked[cid].handle && e.rule.saddr == ClientAddr(host, s.tracked[cid].ip)
    ensures Unowned(AddTracked(host, s, cid, cn, ip, up, Added).0, e)
  {
    var n := RuleOf(host, c, s, s.tracked.Keys, a.orphans.Keys, cid);
    e := s.kernel.nft.value.pre[n];
    AddAppends(host, s, cid, cn, ip, up);
    assert AddTracked(host, s, cid, cn, ip, up, Added).0.kernel.nft.value.pre[n] == e;
  }

  lemma AddSparesUnowned(host: Host, s: State, cid: string, cn: string, ip: string, up: Upstream, e: Entry)
    requires Unowned(s, e) && Chain(s.kernel.nft.value)
    ensures Unowned(AddTracked(host, s, cid, cn, ip, up, Added).0, e)
    ensures Chain(AddTracked(host, s, cid, cn, ip, up, Added).0.kernel.nft.value)
  {
  }

  lemma UninstallSparesUnowned(s: State, cid: string, e: Entry)
    requires Unowned(s, e) && Chain(s.kernel.nft.value)
    ensures Unowned(UninstallRule(s, cid, true).0, e)
    ensures Chain(UninstallRule(s, cid, true).0.kernel.nft.value)
  {
    if cid in s.tracked {
      RemovalSpares(s, UninstallRule(s, cid, true).0, s.tracked[cid].handle, e);
      DropKeepsChain(s.kernel.nft.value, s.tracked[cid].handle);
    }
  }

  lemma InstallSparesUnowned(host: Host, s: State, cid: string, cn: string, ip: string, up: Upstream, e: Entry)
    requires Unowned(s, e) && Chain(s.kernel.nft.value)
    ensures Unowned(InstallRule(host, s, cid, cn, ip, up, Added, true).0, e)
  {
    AddSparesUnowned(host, s, cid, cn, ip, up, e);
    var (s1, ok) := AddTracked(host, s, cid, cn, ip, up, Added);
    if ok && cid in s.tracked {
      RemovalSpares(s1, InstallRule(host, s, cid, cn, ip, up, Added, true).0, s.tracked[cid].handle, e);
    }
  }

  lemma {:induction false} ClearAllSparesUnowned(s: State, order: seq<string>, e: Entry)
    requires Unowned(s, e) && Chain(s.kernel.nft.value)
    ensures Unowned(ClearAll(s, order, _ => true), e)
    decreases |order|
  {
    if order != [] {
      UninstallSparesUnowned(s, order[0], e);
      ClearAllSparesUnowned(UninstallRule(s, order[0], true).0, order[1..], e);
    }
  }
}
