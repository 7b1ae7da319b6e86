/**
 What the rule tracker keeps in every run, however many of its nft and ip
 commands fail: no operation on one session can ever delete another session's
 rule.
 */
module RuleSafety {
  import opened Wrappers
  import opened UpstreamConfig
  import opened Netfilter
  import opened Egress

  ghost predicate Chain(t: Table) {
    && (forall i, j :: 0 <= i < j < |t.pre| ==> t.pre[i].handle < t.pre[j].handle)
    && (forall i :: 0 <= i < |t.pre| ==> t.pre[i].handle < t.next)
  }

  /** The handle is past use, and if it still names a rule, that rule is for this session's address. */
  ghost predicate Owns(host: Host, t: Table, e: TrackedRule) {
    && e.handle < t.next
    && forall i :: 0 <= i < |t.pre| && t.pre[i].handle == e.handle ==>
         t.pre[i].rule.iif == TUN_DEV && t.pre[i].rule.saddr.Some? && t.pre[i].rule.saddr == ClientAddr(host, e.ip)
  }

  /** Safety for the sessions of d. While there is no table, tracked handles may be stale: they
      name nothing, and every session is reinstalled before a table exists again. */
  ghost predicate SafeOn(host: Host, s: State, d: set<string>) {
    s.kernel.nft.Some? ==>
      var t := s.kernel.nft.value;
      && Chain(t)
      && (forall cid :: cid in d && cid in s.tracked ==> Owns(host, t, s.tracked[cid]))
      && (forall a, b :: a in d && b in d && a in s.tracked && b in s.tracked && a != b ==>
            s.tracked[a].handle != s.tracked[b].handle)
  }

  ghost predicate Safe(host: Host, s: State) { SafeOn(host, s, s.tracked.Keys) }

  // ----- the two nft primitives -----

  lemma AddKeeps(host: Host, s: State, d: set<string>, cid: string, cn: string, ip: string, up: Upstream, o: AddOutcome)
    requires SafeOn(host, s, d)
    ensures var (s', ok) := AddTracked(host, s, cid, cn, ip, up, o);
      SafeOn(host, s', if ok then d + {cid} else d)
  {
  }

  lemma DropKeepsChain(t: Table, handle: nat)
    requires Chain(t)
    ensures Chain(t.(pre := DropHandle(t.pre, handle)))
  {
    DropHandleExact(t.pre, handle);
    var r := DropHandle(t.pre, handle);
    forall i | 0 <= i < |r| ensures r[i].handle < t.next {
      assert r[i] in t.pre;
    }
  }

  lemma DropKeepsOwner(host: Host, t: Table, handle: nat, e: TrackedRule)
    requires Chain(t) && Owns(host, t, e)
    ensures Owns(host, t.(pre := DropHandle(t.pre, handle)), e)
  {
    DropHandleExact(t.pre, handle);
    var r := DropHandle(t.pre, handle);
    forall i | 0 <= i < |r| ensures r[i] in t.pre {
      assert r[i] in r;
    }
  }

  lemma RemoveKeeps(host: Host, s: State, d: set<string>, handle: nat, ok: bool)
    requires SafeOn(host, s, d)
    ensures SafeOn(host, s.(kernel := RemoveRule(s.kernel, handle, ok).0), d)
  {
    if s.kernel.nft.Some? {
      var t := s.kernel.nft.value;
      DropKeepsChain(t, handle);
      forall cid | cid in d && cid in s.tracked
        ensures Owns(host, t.(pre := DropHandle(t.pre, handle)), s.tracked[cid])
      {
        DropKeepsOwner(host, t, handle, s.tracked[cid]);
      }
    }
  }

  lemma LoadKeepsChain(nft: Option<Table>, rs: Ruleset)
    requires nft.Some? ==> Chain(nft.value)
    ensures Chain(Load(nft, rs))
  {
  }

  lemma {:induction false} ExecKeepsNft(k: Kernel, cs: seq<IpCommand>, ok: IpCommand -> bool)
    ensures ExecAll(k, cs, ok).nft == k.nft
    decreases |cs|
  {
    if cs != [] {
      ExecKeepsNft(if ok(cs[0]) then Exec(k, cs[0]) else k, cs[1..], ok);
    }
  }

  // ----- the operations -----

  lemma UninstallKeeps(host: Host, s: State, cid: string, remove: bool)
    requires Safe(host, s)
    ensures Safe(host, UninstallRule(s, cid, remove).0)
  {
    if cid in s.tracked {
      RemoveKeeps(host, s, s.tracked.Keys, s.tracked[cid].handle, remove);
    }
  }

  lemma InstallKeeps(host: Host, s: State, cid: string, cn: string, ip: string, up: Upstream, o: AddOutcome,
                     remove: bool)
    requires Safe(host, s)
    ensures Safe(host, InstallRule(host, s, cid, cn, ip, up, o, remove).0)
  {
    AddKeeps(host, s, s.tracked.Keys, cid, cn, ip, up, o);
    var (s', ok) := AddTracked(host, s, cid, cn, ip, up, o);
    assert s'.tracked.Keys == if ok then s.tracked.Keys + {cid} else s.tracked.Keys;
    if ok && cid in s.tracked {
      RemoveKeeps(host, s', s'.tracked.Keys, s.tracked[cid].handle, remove);
    }
  }

  lemma {:induction false} ClearAllKeeps(host: Host, s: State, order: seq<string>, remove: string -> bool)
    requires Safe(host, s)
    ensures Safe(host, ClearAll(s, order, remove))
    decreases |order|
  {
    if order != [] {
      UninstallKeeps(host, s, order[0], remove(order[0]));
      ClearAllKeeps(host, UninstallRule(s, order[0], remove(order[0])).0, order[1..], remove);
    }
  }

  /** Reinstalling makes the sessions it has been through safe, whatever handles they came with. */
  lemma {:induction false} ReinstallKeeps(host: Host, s: State, done: set<string>, order: seq<string>, c: Config,
                                          add: string -> AddOutcome)
    requires Listed(order, s) && SafeOn(host, s, done)
    requires forall cid :: cid in s.tracked ==> cid in done || cid in order
    ensures Safe(host, Reinstall(host, s, order, c, add).0)
    decreases |order|
  {
    if order == [] {
      assert forall cid :: cid in s.tracked ==> cid in done;
    } else {
      var cid, e := order[0], s.tracked[order[0]];
      var s' := ReinstallOne(host, s, cid, c, add(cid)).0;
      if e.cn in c.perCN && Find(c, c.perCN[e.cn]).Some? {
        AddKeeps(host, s, done, cid, e.cn, e.ip, Find(c, c.perCN[e.cn]).value, add(cid));
      }
      assert SafeOn(host, s', done + {cid});
      forall x | x in s'.tracked ensures x in done + {cid} || x in order[1..] {
        assert x in s.tracked;
        if x !in done && x != cid {
          var i :| 0 <= i < |order| && order[i] == x;
          assert order[1..][i - 1] == x;
        }
      }
      ReinstallKeeps(host, s', done + {cid}, order[1..], c, add);
    }
  }

  lemma ApplyKeeps(host: Host, s: State, c: Config, o: Outcomes, order: seq<string>)
    requires Safe(host, s) && IsOrder(order, s)
    ensures Safe(host, Apply(host, s, c, o, order).0)
  {
    if FirstError(host, c).None? {
      var swept := ExecAll(s.kernel, TeardownFrom(0), o.ip);
      ExecKeepsNft(s.kernel, TeardownFrom(0), o.ip);
      ExecKeepsNft(if o.deleteTable then swept.(nft := None) else swept, RouteCommands(c.upstreams), o.ip);
      var k := Rebuilt(s.kernel, c, o);
      if o.check && o.load {
        LoadKeepsChain(k.nft, RulesetOf(host, c));
        var loaded := s.(kernel := k.(nft := Some(Load(k.nft, RulesetOf(host, c)))));
        assert Listed(order, loaded);
        ReinstallKeeps(host, loaded, {}, order, c, o.add);
      }
    }
  }

  // ----- every run -----

  datatype Op =
    | DoApply(c: Config, outcomes: Outcomes, applyOrder: seq<string>)
    | DoEstablish(cid: string, cn: string, ip: string, c: Config, add: AddOutcome)
    | DoDisconnect(cid: string, remove: bool)
    | DoReassign(cid: string, cn: string, ip: string, c: Config, add: AddOutcome, remove: bool)
    | DoClearAll(clearOrder: seq<string>, removes: string -> bool)

  ghost function Do(host: Host, s: State, op: Op): State {
    match op
    case DoApply(c, o, order) => if IsOrder(order, s) then Apply(host, s, c, o, order).0 else s
    case DoEstablish(cid, cn, ip, c, add) => Establish(host, s, cid, cn, ip, c, add).0
    case DoDisconnect(cid, remove) => Disconnect(s, cid, remove)
    case DoReassign(cid, cn, ip, c, add, remove) => Reassign(host, s, cid, cn, ip, c, add, remove).0
    case DoClearAll(order, remove) => ClearAll(s, order, remove)
  }

  ghost function DoAll(host: Host, s: State, ops: seq<Op>): State
    decreases |ops|
  {
    if ops == [] then s else DoAll(host, Do(host, s, ops[0]), ops[1..])
  }

  lemma StepIsSafe(host: Host, s: State, op: Op)
    requires Safe(host, s)
    ensures Safe(host, Do(host, s, op))
  {
    match op
    case DoApply(c, o, order) =>
      if IsOrder(order, s) {
        ApplyKeeps(host, s, c, o, order);
      }
    case DoEstablish(cid, cn, ip, c, add) =>
      if cn in c.perCN && Find(c, c.perCN[cn]).Some? {
        AddKeeps(host, s, s.tracked.Keys, cid, cn, ip, Find(c, c.perCN[cn]).value, add);
        var (s', ok) := AddTracked(host, s, cid, cn, ip, Find(c, c.perCN[cn]).value, add);
        assert s'.tracked.Keys == if ok then s.tracked.Keys + {cid} else s.tracked.Keys;
      }
    case DoDisconnect(cid, remove) => UninstallKeeps(host, s, cid, remove);
    case DoReassign(cid, cn, ip, c, add, remove) =>
      if cn !in c.perCN {
        UninstallKeeps(host, s, cid, remove);
      } else if Find(c, c.perCN[cn]).Some? {
        InstallKeeps(host, s, cid, cn, ip, Find(c, c.perCN[cn]).value, add, remove);
      }
    case DoClearAll(order, remove) => ClearAllKeeps(host, s, order, remove);
  }

  /** Safe in every run from process start, over whatever kernel state a predecessor left. */
  lemma {:induction false} RunsAreSafe(host: Host, s: State, ops: seq<Op>)
    requires Safe(host, s)
    ensures Safe(host, DoAll(host, s, ops))
    decreases |ops|
  {
    if ops != [] {
      StepIsSafe(host, s, ops[0]);
      RunsAreSafe(host, Do(host, s, ops[0]), ops[1..]);
    }
  }

  lemma StartIsSafe(host: Host, k: Kernel)
    requires k.nft.Some? ==> Chain(k.nft.value)
    ensures Safe(host, State(k, map[]))
  {
  }

  /** The session a single-session operation is about. */
  predicate IsFor(op: Op, cid: string) {
    match op
    case DoEstablish(c, _, _, _, _) => c == cid
    case DoDisconnect(c, _) => c == cid
    case DoReassign(c, _, _, _, _, _) => c == cid
    case _ => false
  }

  /** The rule that carries a session's traffic. */
  ghost predicate Carries(s: State, cid: string, r: MarkRule) {
    s.kernel.nft.Some? && cid in s.tracked && Entry(s.tracked[cid].handle, r) in s.kernel.nft.value.pre
  }

  lemma RemovalSparesOthers(host: Host, s: State, d: set<string>, handle: nat, ok: bool, other: string, r: MarkRule)
    requires SafeOn(host, s, d) && other in d
    requires Carries(s, other, r) && s.tracked[other].handle != handle
    ensures Carries(s.(kernel := RemoveRule(s.kernel, handle, ok).0), other, r)
  {
    var t := s.kernel.nft.value;
    if ok && HasHandle(t.pre, handle) {
      DropHandleExact(t.pre, handle);
    }
  }

  /** An operation on one session leaves every other session's entry and live rule in place, a late
      Disconnect for a session that a reconnect replaced included, and whichever commands failed before. */
  lemma OtherSessionsUntouched(host: Host, s: State, op: Op, cid: string, other: string, r: MarkRule)
    requires Safe(host, s) && IsFor(op, cid) && other != cid
    requires Carries(s, other, r)
    ensures Carries(Do(host, s, op), other, r)
    ensures Do(host, s, op).tracked[other] == s.tracked[other]
  {
    match op
    case DoEstablish(_, _, _, _, _) =>
    case DoDisconnect(_, remove) => UninstallSparesOthers(host, s, cid, remove, other, r);
    case DoReassign(_, cn, ip, c, add, remove) =>
      if cn !in c.perCN {
        UninstallSparesOthers(host, s, cid, remove, other, r);
      } else if Find(c, c.perCN[cn]).Some? {
        InstallSparesOthers(host, s, cid, cn, ip, Find(c, c.perCN[cn]).value, add, remove, other, r);
      }
  }

  lemma UninstallSparesOthers(host: Host, s: State, cid: string, remove: bool, other: string, r: MarkRule)
    requires Safe(host, s) && other != cid && Carries(s, other, r)
    ensures var s' := UninstallRule(s, cid, remove).0; Carries(s', other, r) && s'.tracked[other] == s.tracked[other]
  {
    if cid in s.tracked {
      RemovalSparesOthers(host, s, s.tracked.Keys, s.tracked[cid].handle, remove, other, r);
    }
  }

  lemma InstallSparesOthers(host: Host, s: State, cid: string, cn: string, ip: string, up: Upstream,
                            add: AddOutcome, remove: bool, other: string, r: MarkRule)
    requires Safe(host, s) && other != cid && Carries(s, other, r)
    ensures var s' := InstallRule(host, s, cid, cn, ip, up, add, remove).0;
      Carries(s', other, r) && s'.tracked[other] == s.tracked[other]
  {
    var (s', ok) := AddTracked(host, s, cid, cn, ip, up, add);
    AddKeeps(host, s, s.tracked.Keys, cid, cn, ip, up, add);
    assert Carries(s', other, r);
    if ok && cid in s.tracked {
      RemovalSparesOthers(host, s', s'.tracked.Keys, s.tracked[cid].handle, remove, other, r);
    }
  }

  /** The rebuild only ever appends: everything in the freshly loaded chain is still there, in place,
      when the last session has been reinstalled. */
  lemma {:induction false} ReinstallOnlyAppends(host: Host, s: State, order: seq<string>, c: Config,
                                                add: string -> AddOutcome)
    requires Listed(order, s) && s.kernel.nft.Some?
    ensures var k := Reinstall(host, s, order, c, add).0.kernel;
      k.nft.Some? && s.kernel.nft.value.pre <= k.nft.value.pre
    decreases |order|
  {
    if order != [] {
      ReinstallOnlyAppends(host, ReinstallOne(host, s, order[0], c, add(order[0])).0, order[1..], c, add);
    }
  }
}
