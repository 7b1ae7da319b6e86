/**
 The rule tracker of internal/upstream/upstream.go: the table of connected,
 overridden clients and the operations that keep it in step with the kernel.
 Each operation is given twice: as the step it takes on State, and as a method of
 Router that works the way the Go code does and is proved to take that step.
 Every nft and ip command may fail; its outcome is a parameter.
 */
module Egress {
  import opened Wrappers
  import opened UpstreamConfig
  import opened Netfilter

  datatype TrackedRule = TrackedRule(ip: string, cn: string, handle: nat)

  datatype State = State(kernel: Kernel, tracked: map<string, TrackedRule>)

  /** "nft add rule": done, refused, or done with an output that names no handle. */
  datatype AddOutcome = Added | Refused | NoHandle

  /** Which of Apply's commands succeed. */
  datatype Outcomes = Outcomes(
    ip: IpCommand -> bool, relays: bool, deleteTable: bool, check: bool, load: bool, add: string -> AddOutcome)

  // ----- steps -----

  function ClientAddr(host: Host, ip: string): Option<nat> {
    match host.parseIP(ip)
    case Some(IPv4(bits)) => Some(bits)
    case _ => None
  }

  function AddRule(host: Host, k: Kernel, ip: string, table: int, o: AddOutcome): (Kernel, Option<nat>) {
    var addr := ClientAddr(host, ip);
    if addr.None? || k.nft.None? || o.Refused? then (k, None)
    else
      var t := k.nft.value;
      (k.(nft := Some(Append(t, MarkRule(TUN_DEV, addr, table)))), if o.Added? then Some(t.next) else None)
  }

  function RemoveRule(k: Kernel, handle: nat, ok: bool): (Kernel, bool) {
    if ok && k.nft.Some? && HasHandle(k.nft.value.pre, handle) then
      (k.(nft := Some(k.nft.value.(pre := DropHandle(k.nft.value.pre, handle)))), true)
    else (k, false)
  }

  function AddTracked(host: Host, s: State, cid: string, cn: string, ip: string, up: Upstream, o: AddOutcome)
    : (State, bool)
  {
    var (k, handle) := AddRule(host, s.kernel, ip, up.table, o);
    if handle.None? then (State(k, s.tracked), false)
    else (State(k, s.tracked[cid := TrackedRule(ip, cn, handle.value)]), true)
  }

  function InstallRule(host: Host, s: State, cid: string, cn: string, ip: string, up: Upstream, o: AddOutcome,
                       remove: bool): (State, bool)
  {
    var (s', ok) := AddTracked(host, s, cid, cn, ip, up, o);
    if ok && cid in s.tracked then (s'.(kernel := RemoveRule(s'.kernel, s.tracked[cid].handle, remove).0), true)
    else (s', ok)
  }

  function UninstallRule(s: State, cid: string, remove: bool): (State, bool) {
    if cid !in s.tracked then (s, true)
    else
      var (k, ok) := RemoveRule(s.kernel, s.tracked[cid].handle, remove);
      if ok then (State(k, s.tracked - {cid}), true) else (State(k, s.tracked), false)
  }

  function Establish(host: Host, s: State, cid: string, cn: string, ip: string, c: Config, o: AddOutcome)
    : (State, bool)
  {
    if cn !in c.perCN then (s, true)
    else match Find(c, c.perCN[cn])
         case None => (s, false)
         case Some(up) => AddTracked(host, s, cid, cn, ip, up, o)
  }

  function Disconnect(s: State, cid: string, remove: bool): State {
    UninstallRule(s, cid, remove).0
  }

  function Reassign(host: Host, s: State, cid: string, cn: string, ip: string, c: Config, o: AddOutcome,
                    remove: bool): (State, bool)
  {
    if cn !in c.perCN then UninstallRule(s, cid, remove)
    else match Find(c, c.perCN[cn])
         case None => (s, false)
         case Some(up) => InstallRule(host, s, cid, cn, ip, up, o, remove)
  }

  function ClearAll(s: State, order: seq<string>, remove: string -> bool): State
    decreases |order|
  {
    if order == [] then s
    else ClearAll(UninstallRule(s, order[0], remove(order[0])).0, order[1..], remove)
  }

  /** One entry of reinstall's loop; false when it reports an error. */
  function ReinstallOne(host: Host, s: State, cid: string, c: Config, o: AddOutcome): (State, bool)
    requires cid in s.tracked
  {
    var e := s.tracked[cid];
    if e.cn !in c.perCN then (s.(tracked := s.tracked - {cid}), true)
    else match Find(c, c.perCN[e.cn])
         case None => (s.(tracked := s.tracked - {cid}), false)
         case Some(up) =>
           var (s', ok) := AddTracked(host, s, cid, e.cn, e.ip, up, o);
           if ok then (s', true) else (s'.(tracked := s'.tracked - {cid}), false)
  }

  ghost predicate Listed(order: seq<string>, s: State) {
    && (forall i :: 0 <= i < |order| ==> order[i] in s.tracked)
    && (forall i, j :: 0 <= i < j < |order| ==> order[i] != order[j])
  }

  function Reinstall(host: Host, s: State, order: seq<string>, c: Config, add: string -> AddOutcome): (State, bool)
    requires Listed(order, s)
    decreases |order|
  {
    if order == [] then (s, true)
    else
      var (s', ok) := ReinstallOne(host, s, order[0], c, add(order[0]));
      var (s'', rest) := Reinstall(host, s', order[1..], c, add);
      (s'', ok && rest)
  }

  /** order runs through exactly the tracked sessions, each once. */
  ghost predicate IsOrder(order: seq<string>, s: State) {
    Listed(order, s) && forall cid :: cid in s.tracked ==> cid in order
  }

  function Rebuilt(k: Kernel, c: Config, o: Outcomes): Kernel {
    var swept := ExecAll(k, TeardownFrom(0), o.ip);
    ExecAll(if o.deleteTable then swept.(nft := None) else swept, RouteCommands(c.upstreams), o.ip)
  }

  function RouteErrors(ups: seq<Upstream>, ok: IpCommand -> bool): bool {
    var cs := RouteCommands(ups);
    exists i :: 0 <= i < |cs| && !ok(cs[i])
  }

  function Apply(host: Host, s: State, c: Config, o: Outcomes, order: seq<string>): (State, bool)
    requires IsOrder(order, s)
  {
    if FirstError(host, c).Some? then (s, false)
    else
      var clean := !RouteErrors(c.upstreams, o.ip) && o.relays;
      var k := Rebuilt(s.kernel, c, o);
      if !o.check || !o.load then (s.(kernel := k), false)
      else
        var loaded := s.(kernel := k.(nft := Some(Load(k.nft, RulesetOf(host, c)))));
        var (s', ok) := Reinstall(host, loaded, order, c, o.add);
        (s', ok && clean)
  }

  // ----- the Go code's own form -----

  class Router {
    var kernel: Kernel
    var tracked: map<string, TrackedRule>
    const host: Host

    constructor (host: Host, k: Kernel)
      ensures this.host == host && View() == State(k, map[])
    {
      this.host, kernel, tracked := host, k, map[];
    }

    function View(): State
      reads this
    {
      State(kernel, tracked)
    }

    /** Runs ip commands one by one and reports whether any failed. */
    method RunAll(cs: seq<IpCommand>, ok: IpCommand -> bool) returns (failed: bool)
      modifies this`kernel
      ensures kernel == ExecAll(old(kernel), cs, ok)
      ensures failed <==> exists i :: 0 <= i < |cs| && !ok(cs[i])
    {
      failed := false;
      for n := 0 to |cs|
        invariant ExecAll(old(kernel), cs, ok) == ExecAll(kernel, cs[n..], ok)
        invariant failed <==> exists i :: 0 <= i < n && !ok(cs[i])
      {
        assert cs[n..][0] == cs[n] && cs[n..][1..] == cs[n + 1..];
        if ok(cs[n]) {
          kernel := Exec(kernel, cs[n]);
        } else {
          failed := true;
        }
      }
    }

    method AddTrackedRule(cid: string, cn: string, ip: string, up: Upstream, o: AddOutcome) returns (ok: bool)
      modifies this
      ensures (View(), ok) == AddTracked(host, old(View()), cid, cn, ip, up, o)
    {
      var (k, handle) := AddRule(host, kernel, ip, up.table, o);
      kernel := k;
      if handle.None? {
        return false;
      }
      tracked := tracked[cid := TrackedRule(ip, cn, handle.value)];
      return true;
    }

    method Install(cid: string, cn: string, ip: string, up: Upstream, o: AddOutcome, remove: bool) returns (ok: bool)
      modifies this
      ensures (View(), ok) == InstallRule(host, old(View()), cid, cn, ip, up, o, remove)
    {
      var hadOld := cid in tracked;
      var oldHandle := if hadOld then tracked[cid].handle else 0;
      ok := AddTrackedRule(cid, cn, ip, up, o);
      if ok && hadOld {
        kernel := RemoveRule(kernel, oldHandle, remove).0;
      }
    }

    method Uninstall(cid: string, remove: bool) returns (ok: bool)
      modifies this
      ensures (View(), ok) == UninstallRule(old(View()), cid, remove)
    {
      if cid !in tracked {
        return true;
      }
      var (k, removed) := RemoveRule(kernel, tracked[cid].handle, remove);
      kernel := k;
      if !removed {
        return false;
      }
      tracked := tracked - {cid};
      return true;
    }

    method OnEstablished(cid: string, cn: string, ip: string, c: Config, o: AddOutcome) returns (ok: bool)
      modifies this
      ensures (View(), ok) == Establish(host, old(View()), cid, cn, ip, c, o)
    {
      if cn !in c.perCN {
        return true;
      }
      var up := FindLoop(c, c.perCN[cn]);
      if up.None? {
        return false;
      }
      ok := AddTrackedRule(cid, cn, ip, up.value, o);
    }

    method OnDisconnect(cid: string, remove: bool)
      modifies this
      ensures View() == Disconnect(old(View()), cid, remove)
    {
      var _ := Uninstall(cid, remove);
    }

    method ReassignSession(cid: string, cn: string, ip: string, c: Config, o: AddOutcome, remove: bool)
      returns (ok: bool)
      modifies this
      ensures (View(), ok) == Reassign(host, old(View()), cid, cn, ip, c, o, remove)
    {
      if cn !in c.perCN {
        ok := Uninstall(cid, remove);
        return;
      }
      var up := FindLoop(c, c.perCN[cn]);
      if up.None? {
        return false;
      }
      ok := Install(cid, cn, ip, up.value, o, remove);
    }

    /** Ranges over the tracked map in whatever order it yields. */
    method OnExit(remove: string -> bool) returns (ghost order: seq<string>)
      modifies this
      ensures IsOrder(order, old(View()))
      ensures View() == ClearAll(old(View()), order, remove)
    {
      order := [];
      var todo := tracked.Keys;
      while todo != {}
        invariant todo <= old(tracked).Keys
        invariant forall cid :: cid in todo ==> cid in tracked
        invariant Listed(order, old(View()))
        invariant forall cid :: cid in old(tracked) ==> (cid in order <==> cid !in todo)
        invariant View() == ClearAll(old(View()), order, remove)
      {
        var cid :| cid in todo;
        ClearAllConcat(old(View()), order, [cid], remove);
        var _ := Uninstall(cid, remove(cid));
        assert ClearAll(ClearAll(old(View()), order, remove), [cid], remove) == View() by {
          assert [cid][1..] == [];
        }
        order := order + [cid];
        todo := todo - {cid};
      }
    }

    method ReinstallAll(c: Config, add: string -> AddOutcome) returns (ok: bool, ghost order: seq<string>)
      modifies this
      ensures IsOrder(order, old(View()))
      ensures (View(), ok) == Reinstall(host, old(View()), order, c, add)
    {
      ok, order := true, [];
      var todo := tracked.Keys;
      while todo != {}
        invariant todo <= old(tracked).Keys
        invariant forall cid :: cid in todo ==> cid in tracked
        invariant Listed(order, old(View()))
        invariant forall cid :: cid in old(tracked) ==> (cid in order <==> cid !in todo)
        invariant (View(), ok) == Reinstall(host, old(View()), order, c, add)
      {
        var cid :| cid in todo;
        ghost var before := View();
        var e := tracked[cid];
        var one := true;
        if e.cn !in c.perCN {
          tracked := tracked - {cid};
        } else {
          var up := FindLoop(c, c.perCN[e.cn]);
          if up.None? {
            one := false;
            tracked := tracked - {cid};
          } else {
            one := AddTrackedRule(cid, e.cn, e.ip, up.value, add(cid));
            if !one {
              tracked := tracked - {cid};
            }
          }
        }
        assert (View(), one) == ReinstallOne(host, before, cid, c, add(cid));
        ReinstallSnoc(host, old(View()), order, cid, c, add);
        ok, order, todo := ok && one, order + [cid], todo - {cid};
      }
    }

    method ClearBand(ip: IpCommand -> bool, deleteTable: bool)
      modifies this`kernel
      ensures var swept := ExecAll(old(kernel), TeardownFrom(0), ip);
        kernel == if deleteTable then swept.(nft := None) else swept
    {
      var cs := TeardownArgs();
      var _ := RunAll(cs, ip);
      if deleteTable {
        kernel := kernel.(nft := None);
      }
    }

    method InstallRoutes(c: Config, ip: IpCommand -> bool) returns (failed: bool)
      modifies this`kernel
      ensures kernel == ExecAll(old(kernel), RouteCommands(c.upstreams), ip)
      ensures failed <==> RouteErrors(c.upstreams, ip)
    {
      var ups := c.upstreams;
      failed := false;
      for n := 0 to |ups|
        invariant ExecAll(old(kernel), RouteCommands(ups), ip) == ExecAll(kernel, RouteCommands(ups[n..]), ip)
        invariant RouteErrors(ups, ip) <==> failed || RouteErrors(ups[n..], ip)
      {
        assert ups[n..][0] == ups[n] && ups[n..][1..] == ups[n + 1..];
        assert RouteCommands(ups[n..])
          == (if ups[n].IsSOCKS() then [] else RouteArgs(ups[n])) + RouteCommands(ups[n + 1..]);
        if ups[n].IsSOCKS() {
          assert RouteCommands(ups[n..]) == RouteCommands(ups[n + 1..]);
        } else {
          ExecAllConcat(kernel, RouteArgs(ups[n]), RouteCommands(ups[n + 1..]), ip);
          ErrorsConcat(RouteArgs(ups[n]), RouteCommands(ups[n + 1..]), ip);
          var bad := RunAll(RouteArgs(ups[n]), ip);
          failed := failed || bad;
        }
      }
    }

    method RebuildBand(c: Config, o: Outcomes) returns (failed: bool)
      modifies this`kernel
      ensures kernel == Rebuilt(old(kernel), c, o)
      ensures failed <==> RouteErrors(c.upstreams, o.ip)
    {
      ClearBand(o.ip, o.deleteTable);
      failed := InstallRoutes(c, o.ip);
    }

    method ApplyConfig(c: Config, o: Outcomes) returns (ok: bool, ghost order: seq<string>)
      modifies this
      ensures IsOrder(order, old(View()))
      ensures (View(), ok) == Apply(host, old(View()), c, o, order)
    {
      var err := Validate(host, c);
      if err.Some? {
        ok, order := false, SomeOrder(View());
        return;
      }
      var failed := RebuildBand(c, o);
      var ruleset := NftRuleset(host, c);
      if !o.check || !o.load {
        ok, order := false, SomeOrder(View());
        return;
      }
      kernel := kernel.(nft := Some(Load(kernel.nft, ruleset)));
      var reinstalled;
      reinstalled, order := ReinstallAll(c, o.add);
      ok := reinstalled && !failed && o.relays;
    }
  }

  // ----- support for the methods -----

  ghost function SomeOrder(s: State): (order: seq<string>)
    ensures IsOrder(order, s)
  {
    OrderOf(s, s.tracked.Keys)
  }

  ghost function OrderOf(s: State, keys: set<string>): (order: seq<string>)
    requires keys <= s.tracked.Keys
    ensures Listed(order, s) && forall cid :: cid in order <==> cid in keys
    decreases keys
  {
    if keys == {} then []
    else
      var cid :| cid in keys;
      [cid] + OrderOf(s, keys - {cid})
  }

  lemma {:induction false} ClearAllConcat(s: State, a: seq<string>, b: seq<string>, remove: string -> bool)
    ensures ClearAll(s, a + b, remove) == ClearAll(ClearAll(s, a, remove), b, remove)
    decreases |a|
  {
    if a == [] {
      assert a + b == b;
    } else {
      assert (a + b)[1..] == a[1..] + b;
      ClearAllConcat(UninstallRule(s, a[0], remove(a[0])).0, a[1..], b, remove);
    }
  }

  /** Reinstalling one session leaves the table's other keys as they are. */
  lemma {:induction false} ReinstallKeys(host: Host, s: State, order: seq<string>, c: Config, add: string -> AddOutcome)
    requires Listed(order, s)
    ensures forall cid :: cid !in order ==> (cid in Reinstall(host, s, order, c, add).0.tracked <==> cid in s.tracked)
    decreases |order|
  {
    if order != [] {
      ReinstallKeys(host, ReinstallOne(host, s, order[0], c, add(order[0])).0, order[1..], c, add);
    }
  }

  lemma {:induction false} ReinstallSnoc(host: Host, s: State, order: seq<string>, cid: string, c: Config,
                                         add: string -> AddOutcome)
    requires Listed(order + [cid], s) && Listed(order, s)
    ensures cid in Reinstall(host, s, order, c, add).0.tracked
    ensures var (s', ok) := Reinstall(host, s, order, c, add);
      var (s'', one) := ReinstallOne(host, s', cid, c, add(cid));
      Reinstall(host, s, order + [cid], c, add) == (s'', ok && one)
    decreases |order|
  {
    assert forall i :: 0 <= i < |order| ==> (order + [cid])[i] == order[i];
    assert (order + [cid])[|order|] == cid && cid !in order;
    ReinstallKeys(host, s, order, c, add);
    if order == [] {
      assert [cid][1..] == [];
    } else {
      assert (order + [cid])[1..] == order[1..] + [cid];
      ReinstallSnoc(host, ReinstallOne(host, s, order[0], c, add(order[0])).0, order[1..], cid, c, add);
    }
  }

  lemma ErrorsConcat(a: seq<IpCommand>, b: seq<IpCommand>, ok: IpCommand -> bool)
    ensures (exists i :: 0 <= i < |a + b| && !ok((a + b)[i]))
      <==> (exists i :: 0 <= i < |a| && !ok(a[i])) || (exists i :: 0 <= i < |b| && !ok(b[i]))
  {
    if i :| 0 <= i < |b| && !ok(b[i]) {
      assert (a + b)[|a| + i] == b[i];
    }
    if i :| 0 <= i < |a| && !ok(a[i]) {
      assert (a + b)[i] == a[i];
    }
  }
}
