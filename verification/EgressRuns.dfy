/**
 Whole runs of the server, with everything asynchronous: configurations are saved
 and applied by concurrent requests, sessions come and go, the worker exits and is
 launched again, and the callbacks that tell the tracker so arrive late, or never.
 In every run whose nft commands succeed (ip commands may fail freely) each
 connected session's traffic is accounted for exactly.
 */
module EgressRuns {
  import opened Wrappers
  import opened UpstreamConfig
  import opened Netfilter
  import opened KillSwitch
  import opened Egress
  import opened RuleSafety
  import opened TrackerAgreement
  import opened RuleAccounts
  import opened PacketFates

  datatype Session = Session(cn: string, ip: string)

  /** The tracker and the kernel, the stored configuration and the one last applied, the upstreams that Apply
      could guard, the sessions connected to the worker, the account of the chain, and the worker exits whose
      OnExit is still to come. */
  datatype World = World(
    s: State, stored: Config, applied: Config, guarded: set<Upstream>, conn: map<string, Session>,
    account: Account, exits: nat)

  datatype Event =
    // the administrators
    | Stored(e: Edit)
    | Applied(loaded: Config, o: Outcomes, order: seq<string>)
    | Rewritten(cid: string, cn: string, ip: string, loaded: Config)    // Reassign, with what the status file listed
    // OpenVPN
    | Connected(cid: string, cn: string, ip: string)
    | HungUp(cid: string)
    | Exited
    // its callbacks, whenever they come and whatever configuration they load
    | Established(cid: string, cn: string, ip: string, loaded: Config)
    | Disconnected(cid: string)
    | Cleared(order: seq<string>)                                       // OnExit

  /** OpenVPN's pool hands out each address once; nft commands succeed; OnExit runs once per exit. Nothing
      ties a callback or a rewrite to the sessions that are connected when it comes. */
  ghost predicate Admissible(host: Host, w: World, ev: Event) {
    match ev
    case Applied(loaded, o, order) => WellKept(host, loaded) && IsOrder(order, w.s) && NftOk(w.s, o, order)
    case Connected(cid, cn, ip) =>
      && cid !in w.conn
      && ClientAddr(host, ip).Some?
      && forall x :: x in w.conn ==> ClientAddr(host, w.conn[x].ip) != ClientAddr(host, ip)
    case Cleared(order) => w.exits > 0 && IsOrder(order, w.s)
    case _ => true
  }

  /** A rule can be added for client cn at ip under configuration c. */
  predicate Routable(host: Host, s: State, c: Config, cn: string, ip: string) {
    s.kernel.nft.Some? && Assigned(c, cn).Some? && ClientAddr(host, ip).Some?
  }

  ghost function Next(host: Host, w: World, ev: Event): World {
    match ev
    case Stored(e) => w.(stored := Edited(host, w.stored, e))
    case Applied(loaded, o, order) =>
      if IsOrder(order, w.s) then
        var s' := Apply(host, w.s, loaded, o, order).0;
        w.(s := s', applied := loaded, guarded := GuardedBy(loaded, o), account := Reopened(loaded, s'))
      else w
    case Rewritten(cid, cn, ip, loaded) =>
      w.(s := Reassign(host, w.s, cid, cn, ip, loaded, Added, true).0,
         account :=
           if cn !in loaded.perCN then WithoutEntry(w.account, cid)
           else if Routable(host, w.s, loaded, cn, ip) then
             w.account.(given := w.account.given[cid := TableFor(loaded, cn)])
           else w.account)
    case Connected(cid, cn, ip) => w.(conn := w.conn[cid := Session(cn, ip)])
    case HungUp(cid) => w.(conn := w.conn - {cid})
    case Exited => w.(conn := map[], exits := w.exits + 1)
    case Established(cid, cn, ip, loaded) =>
      w.(s := Establish(host, w.s, cid, cn, ip, loaded, Added).0,
         account :=
           if Routable(host, w.s, loaded, cn, ip) then WithRule(host, w.s, w.account, cid, TableFor(loaded, cn))
           else w.account)
    case Disconnected(cid) => w.(s := Disconnect(w.s, cid, true), account := WithoutEntry(w.account, cid))
    case Cleared(order) =>
      w.(s := ClearAll(w.s, order, _ => true), account := Account(map[], w.account.orphans),
         exits := if w.exits > 0 then w.exits - 1 else 0)
  }

  /** Startup: nothing tracked, whatever table and band a predecessor left, then the first Apply. */
  ghost predicate Init(host: Host, w: World) {
    exists k: Kernel, o: Outcomes ::
      && (k.nft.Some? ==> Chain(k.nft.value)) && Canonical(k)
      && WellKept(host, w.stored) && NftOk(State(k, map[]), o, [])
      && Started(host, w, k, o)
  }

  ghost predicate Started(host: Host, w: World, k: Kernel, o: Outcomes) {
    && IsOrder([], State(k, map[]))
    && w == World(Apply(host, State(k, map[]), w.stored, o, []).0, w.stored, w.stored, GuardedBy(w.stored, o),
                  map[], Account(map[], map[]), 0)
  }

  // ----- what every run keeps -----

  ghost predicate Connections(host: Host, conn: map<string, Session>) {
    && (forall cid :: cid in conn ==> ClientAddr(host, conn[cid].ip).Some?)
    && (forall x, y :: x in conn && y in conn && x != y ==>
          ClientAddr(host, conn[x].ip) != ClientAddr(host, conn[y].ip))
  }

  ghost predicate Inv(host: Host, w: World) {
    && WellKept(host, w.stored) && WellKept(host, w.applied)
    && Canonical(w.s.kernel) && (forall u :: u in w.guarded ==> Guarded(w.s.kernel, u))
    && Accounted(host, w.applied, w.s, w.account)
    && Connections(host, w.conn)
  }

  lemma TrackedAddresses(host: Host, c: Config, s: State, a: Account)
    requires Accounted(host, c, s, a)
    ensures AddressesOk(host, s)
  {
    forall cid | cid in s.tracked ensures ClientAddr(host, s.tracked[cid].ip).Some? {
      var n := RuleOf(host, c, s, s.tracked.Keys, a.orphans.Keys, cid);
    }
  }

  lemma AppliedStep(host: Host, w: World, ev: Event)
    requires Inv(host, w) && ev.Applied? && Admissible(host, w, ev)
    ensures Inv(host, Next(host, w, ev))
  {
    TrackedAddresses(host, w.applied, w.s, w.account);
    ApplyAccounted(host, w.s, ev.loaded, ev.o, ev.order);
    ApplyCanonical(host, w.s, ev.loaded, ev.o, ev.order);
    ApplyGuards(host, w.s, ev.loaded, ev.o, ev.order);
  }

  lemma EstablishedAccounted(host: Host, c: Config, s: State, a: Account, cid: string, cn: string, ip: string,
                             loaded: Config)
    requires Accounted(host, c, s, a)
    ensures var s' := Establish(host, s, cid, cn, ip, loaded, Added).0;
      && Accounted(host, c, s',
                   if Routable(host, s, loaded, cn, ip) then WithRule(host, s, a, cid, TableFor(loaded, cn)) else a)
      && s'.tracked == (if Routable(host, s, loaded, cn, ip) then
                          s.tracked[cid := TrackedRule(ip, cn, s.kernel.nft.value.next)]
                        else s.tracked)
      && s'.kernel.routes == s.kernel.routes && s'.kernel.rules == s.kernel.rules
  {
    if Routable(host, s, loaded, cn, ip) {
      AddAccounted(host, c, s, a, cid, cn, ip, Assigned(loaded, cn).value);
      AddedState(host, s, cid, cn, ip, Assigned(loaded, cn).value);
    } else {
      assert Establish(host, s, cid, cn, ip, loaded, Added).0 == s;
    }
  }

  lemma RewrittenAccounted(host: Host, c: Config, s: State, a: Account, cid: string, cn: string, ip: string,
                           loaded: Config)
    requires Accounted(host, c, s, a)
    ensures var s' := Reassign(host, s, cid, cn, ip, loaded, Added, true).0;
      && Accounted(host, c, s',
                   if cn !in loaded.perCN then WithoutEntry(a, cid)
                   else if Routable(host, s, loaded, cn, ip) then a.(given := a.given[cid := TableFor(loaded, cn)])
                   else a)
      && s'.tracked == (if cn !in loaded.perCN then s.tracked - {cid}
                        else if Routable(host, s, loaded, cn, ip) then
                          s.tracked[cid := TrackedRule(ip, cn, s.kernel.nft.value.next)]
                        else s.tracked)
      && s'.kernel.routes == s.kernel.routes && s'.kernel.rules == s.kernel.rules
  {
    if cn !in loaded.perCN {
      UninstallAccounted(host, c, s, a, cid);
    } else if Routable(host, s, loaded, cn, ip) {
      InstallAccounted(host, c, s, a, cid, cn, ip, Assigned(loaded, cn).value);
      InstalledState(host, s, cid, cn, ip, Assigned(loaded, cn).value);
    } else {
      assert Reassign(host, s, cid, cn, ip, loaded, Added, true).0 == s;
    }
  }

  /** The tracker's own operations change nothing but its rules. */
  lemma TrackerStep(host: Host, w: World, ev: Event)
    requires Inv(host, w) && Admissible(host, w, ev)
    requires ev.Rewritten? || ev.Established? || ev.Disconnected? || ev.Cleared?
    ensures var w' := Next(host, w, ev);
      && Accounted(host, w.applied, w'.s, w'.account)
      && w'.s.kernel.routes == w.s.kernel.routes && w'.s.kernel.rules == w.s.kernel.rules
      && w' == w.(s := w'.s, account := w'.account, exits := w'.exits)
  {
    match ev
    case Rewritten(cid, cn, ip, loaded) => RewrittenAccounted(host, w.applied, w.s, w.account, cid, cn, ip, loaded);
    case Established(cid, cn, ip, loaded) => EstablishedAccounted(host, w.applied, w.s, w.account, cid, cn, ip, loaded);
    case Disconnected(cid) => UninstallAccounted(host, w.applied, w.s, w.account, cid);
    case Cleared(order) => ClearAllAccounted(host, w.applied, w.s, w.account, order);
  }

  lemma TrackerStepInv(host: Host, w: World, ev: Event)
    requires Inv(host, w) && Admissible(host, w, ev)
    requires ev.Rewritten? || ev.Established? || ev.Disconnected? || ev.Cleared?
    ensures Inv(host, Next(host, w, ev))
  {
    TrackerStep(host, w, ev);
  }

  lemma ConnectionStep(host: Host, w: World, ev: Event)
    requires Inv(host, w) && Admissible(host, w, ev) && (ev.Connected? || ev.HungUp? || ev.Exited?)
    ensures Inv(host, Next(host, w, ev))
  {
  }

  lemma StepKeepsInv(host: Host, w: World, ev: Event)
    requires Inv(host, w) && Admissible(host, w, ev)
    ensures Inv(host, Next(host, w, ev))
  {
    match ev
    case Stored(e) => EditKeepsConfig(host, w.stored, e);
    case Applied(_, _, _) => AppliedStep(host, w, ev);
    case Connected(_, _, _) => ConnectionStep(host, w, ev);
    case HungUp(_) => ConnectionStep(host, w, ev);
    case Exited => ConnectionStep(host, w, ev);
    case _ => TrackerStepInv(host, w, ev);
  }

  lemma InitInv(host: Host, w: World)
    requires Init(host, w)
    ensures Inv(host, w)
  {
    var k: Kernel, o: Outcomes :| Canonical(k) && NftOk(State(k, map[]), o, []) && Started(host, w, k, o);
    StartedInv(host, w, k, o);
  }

  lemma StartedInv(host: Host, w: World, k: Kernel, o: Outcomes)
    requires WellKept(host, w.stored) && Canonical(k) && NftOk(State(k, map[]), o, []) && Started(host, w, k, o)
    ensures Inv(host, w)
  {
    ApplyAccounted(host, State(k, map[]), w.stored, o, []);
    ApplyCanonical(host, State(k, map[]), w.stored, o, []);
    ApplyGuards(host, State(k, map[]), w.stored, o, []);
    assert w.s.tracked == map[];
    assert Reopened(w.stored, w.s) == Account(map[], map[]);
  }

  // ----- runs -----

  ghost predicate Steps(host: Host, w: World, evs: seq<Event>, w': World)
    decreases |evs|
  {
    if evs == [] then w' == w
    else Admissible(host, w, evs[0]) && Steps(host, Next(host, w, evs[0]), evs[1..], w')
  }

  ghost predicate Reachable(host: Host, w: World) {
    exists start: World, evs: seq<Event> :: Init(host, start) && Steps(host, start, evs, w)
  }

  lemma {:induction false} RunKeepsInv(host: Host, w: World, evs: seq<Event>, w': World)
    requires Inv(host, w) && Steps(host, w, evs, w')
    ensures Inv(host, w')
    decreases |evs|
  {
    if evs != [] {
      StepKeepsInv(host, w, evs[0]);
      RunKeepsInv(host, Next(host, w, evs[0]), evs[1..], w');
    }
  }

  /** At every point of every run the chain is accounted for. */
  lemma ReachableInv(host: Host, w: World)
    requires Reachable(host, w)
    ensures Inv(host, w)
  {
    var start: World, evs: seq<Event> :| Init(host, start) && Steps(host, start, evs, w);
    InitInv(host, start);
    RunKeepsInv(host, start, evs, w);
  }

  lemma {:induction false} StepsOn(host: Host, w: World, evs: seq<Event>, w': World, ev: Event)
    requires Steps(host, w, evs, w') && Admissible(host, w', ev)
    ensures Steps(host, w, evs + [ev], Next(host, w', ev))
    decreases |evs|
  {
    if evs != [] {
      assert (evs + [ev])[1..] == evs[1..] + [ev];
      StepsOn(host, Next(host, w, evs[0]), evs[1..], w', ev);
    } else {
      assert [ev][1..] == [];
      assert Steps(host, Next(host, w, ev), [], Next(host, w, ev));
    }
  }

  lemma ReachableOn(host: Host, w: World, ev: Event)
    requires Reachable(host, w) && Admissible(host, w, ev)
    ensures Reachable(host, Next(host, w, ev))
  {
    var start: World, evs: seq<Event> :| Init(host, start) && Steps(host, start, evs, w);
    StepsOn(host, start, evs, w, ev);
  }

  lemma StartReachable(host: Host, w: World)
    requires Init(host, w)
    ensures Reachable(host, w)
  {
    assert Steps(host, w, [], w);
  }

  lemma StartTracksNothing(host: Host, c: Config, k: Kernel, o: Outcomes)
    requires Valid(host, c) && NftOk(State(k, map[]), o, [])
    ensures IsOrder([], State(k, map[])) && Apply(host, State(k, map[]), c, o, []).0.tracked == map[]
  {
    ApplyAccounted(host, State(k, map[]), c, o, []);
  }

  lemma StartFrom(host: Host, c: Config, k: Kernel, o: Outcomes) returns (w: World)
    requires WellKept(host, c) && k.nft.None? && Canonical(k) && NftOk(State(k, map[]), o, [])
    ensures Init(host, w)
    ensures w.stored == c && w.applied == c && w.conn == map[] && w.s.tracked == map[]
    ensures w.account == Account(map[], map[]) && w.exits == 0
  {
    StartTracksNothing(host, c, k, o);
    w := World(Apply(host, State(k, map[]), c, o, []).0, c, c, GuardedBy(c, o), map[], Account(map[], map[]), 0);
    assert Started(host, w, k, o);
  }

  /** Runs exist for every configuration that the edits can reach. */
  lemma StartExists(host: Host, c: Config) returns (w: World)
    requires WellKept(host, c)
    ensures Init(host, w)
    ensures w.stored == c && w.applied == c && w.conn == map[] && w.s.tracked == map[]
    ensures w.account == Account(map[], map[]) && w.exits == 0
  {
    var k := Kernel(None, map[], map[]);
    var o := Outcomes(_ => true, true, true, true, true, _ => Added);
    w := StartFrom(host, c, k, o);
  }

  // ----- the rules -----

  ghost predicate RuleOwned(host: Host, w: World, t: Table, n: nat) {
    exists cid :: cid in w.s.tracked && RuleAt(host, t, n, w.s.tracked[cid])
  }

  /** At every point of every run: behind the compiled ruleset every rule is the rule of a tracked entry or an
      orphan, every tracked entry has a rule of its own, and no two entries or rules share a handle. */
  lemma OneRulePerEntry(host: Host, w: World)
    requires Reachable(host, w)
    ensures w.s.kernel.nft.Some?
    ensures var t, b := w.s.kernel.nft.value, |DefaultMark(w.applied)|;
      && (forall n: nat :: b <= n < |t.pre| ==> RuleOwned(host, w, t, n) || t.pre[n].handle in w.account.orphans)
      && (forall cid :: cid in w.s.tracked ==> HasRule(host, t, b, w.s.tracked[cid]))
      && (forall x, y :: x in w.s.tracked && y in w.s.tracked && x != y ==>
            w.s.tracked[x].handle != w.s.tracked[y].handle)
      && (forall n, m :: 0 <= n < m < |t.pre| ==> t.pre[n].handle < t.pre[m].handle)
  {
    ReachableInv(host, w);
    var t, b, orphans := w.s.kernel.nft.value, |DefaultMark(w.applied)|, w.account.orphans.Keys;
    forall n: nat | b <= n < |t.pre| && t.pre[n].handle !in orphans ensures RuleOwned(host, w, t, n) {
      var cid :| cid in w.s.tracked.Keys && cid in w.s.tracked && w.s.tracked[cid].handle == t.pre[n].handle;
      var m := RuleOf(host, w.applied, w.s, w.s.tracked.Keys, orphans, cid);
      assert m == n;
    }
  }

  /** The only way to an orphan: ESTABLISHED for a session id that still has an entry. The old rule stays in
      the chain with no entry to remove it by. */
  lemma ReusedIdOrphansRule(host: Host, c: Config, s: State, a: Account, cid: string, cn: string, ip: string,
                            loaded: Config)
    returns (e: Entry)
    requires Accounted(host, c, s, a) && cid in s.tracked && Routable(host, s, loaded, cn, ip)
    ensures e.handle == s.tracked[cid].handle && e.rule.saddr == ClientAddr(host, s.tracked[cid].ip)
    ensures Unowned(Establish(host, s, cid, cn, ip, loaded, Added).0, e)
  {
    e := AddOrphansOld(host, c, s, a, cid, cn, ip, Assigned(loaded, cn).value);
  }

  /** And there it stays until the next Apply, OnExit's ClearAll included. */
  lemma OrphanStays(host: Host, w: World, ev: Event, e: Entry)
    requires Inv(host, w) && !ev.Applied? && Unowned(w.s, e)
    ensures Unowned(Next(host, w, ev).s, e)
  {
    match ev
    case Rewritten(cid, cn, ip, loaded) =>
      if cn !in loaded.perCN {
        UninstallSparesUnowned(w.s, cid, e);
      } else if Assigned(loaded, cn).Some? {
        InstallSparesUnowned(host, w.s, cid, cn, ip, Assigned(loaded, cn).value, e);
      }
    case Established(cid, cn, ip, loaded) =>
      if Assigned(loaded, cn).Some? {
        AddSparesUnowned(host, w.s, cid, cn, ip, Assigned(loaded, cn).value, e);
      }
    case Disconnected(cid) => UninstallSparesUnowned(w.s, cid, e);
    case Cleared(order) => ClearAllSparesUnowned(w.s, order, e);
    case _ =>
  }

  // ----- whose rule marks a session's packets -----

  /** The tracker has an entry for exactly this session. */
  predicate Live(w: World, cid: string) {
    && cid in w.conn && cid in w.s.tracked
    && w.conn[cid] == Session(w.s.tracked[cid].cn, w.s.tracked[cid].ip)
  }

  /** At every point of every run, for every address: the latest rule for it decides the mark of a packet from
      the tunnel, whether that rule is its session's, another's or an orphan; without any, the default does. */
  lemma AddressMark(host: Host, w: World, p: Packet)
    requires Reachable(host, w) && p.iif == TUN_DEV
    ensures forall h: nat, m :: Decides(host, w.s, w.account, p.src, h, m) ==> MarkOf(w.s.kernel, p) == m
    ensures (forall h: nat, m :: !RuleFor(host, w.s, w.account, p.src, h, m)) ==>
      MarkOf(w.s.kernel, p) == MarkFor(w.applied, w.applied.default)
    ensures (exists h: nat, m :: RuleFor(host, w.s, w.account, p.src, h, m)) ==>
      exists h: nat, m :: Decides(host, w.s, w.account, p.src, h, m)
  {
    ReachableInv(host, w);
    forall h: nat, m | Decides(host, w.s, w.account, p.src, h, m) ensures MarkOf(w.s.kernel, p) == m {
      DecidedMark(host, w.applied, w.s, w.account, h, m, p);
    }
    var d := SomeRuleDecides(host, w.applied, w.s, w.account, p.src);
    if d.None? {
      NoRuleMark(host, w.applied, w.s, w.account, p);
      DefaultIs(host, w.applied);
    }
  }

  /** A rewrite, or ESTABLISHED, that adds a rule decides for its address at once, whatever rules there are for
      it already and whoever holds it. */
  lemma LatestRuleMarks(host: Host, w: World, ev: Event, p: Packet)
    requires Inv(host, w) && (ev.Rewritten? || ev.Established?) && Routable(host, w.s, ev.loaded, ev.cn, ev.ip)
    requires p.iif == TUN_DEV && ClientAddr(host, ev.ip) == Some(p.src)
    ensures MarkOf(Next(host, w, ev).s.kernel, p) == TableFor(ev.loaded, ev.cn)
  {
    var w' := Next(host, w, ev);
    TrackerStep(host, w, ev);
    AddedEntry(host, w, ev);
    NewRuleDecides(host, w.applied, w.s, w.account, w'.s, w'.account, ev.cid, p.src);
    DecidedMark(host, w.applied, w'.s, w'.account, w.s.kernel.nft.value.next, TableFor(ev.loaded, ev.cn), p);
  }

  lemma AddedEntry(host: Host, w: World, ev: Event)
    requires Inv(host, w) && (ev.Rewritten? || ev.Established?) && Routable(host, w.s, ev.loaded, ev.cn, ev.ip)
    ensures var w' := Next(host, w, ev);
      && w'.s.tracked == w.s.tracked[ev.cid := TrackedRule(ev.ip, ev.cn, w.s.kernel.nft.value.next)]
      && w'.account.given == w.account.given[ev.cid := TableFor(ev.loaded, ev.cn)]
      && w'.account.orphans.Keys
        <= w.account.orphans.Keys + (if ev.cid in w.s.tracked then {w.s.tracked[ev.cid].handle} else {})
  {
    match ev
    case Rewritten(cid, cn, ip, loaded) => RewrittenAccounted(host, w.applied, w.s, w.account, cid, cn, ip, loaded);
    case Established(cid, cn, ip, loaded) => EstablishedAccounted(host, w.applied, w.s, w.account, cid, cn, ip, loaded);
  }

  /** The entry of a session that is not connected holds the address, or an orphan does. */
  ghost predicate Haunted(host: Host, w: World, src: nat) {
    OrphanAt(w.account, src) || exists cid :: cid in w.s.tracked && !Live(w, cid) && Holds(host, w.s, cid, src)
  }

  /** What a session's packets are marked with: its entry's table, or the default. */
  function Carried(w: World, cid: string): int {
    if Live(w, cid) && cid in w.account.given then w.account.given[cid] else DefaultMarkValue(w.applied)
  }

  /** At every point of every run a tunnel packet from a connected session's address carries exactly that,
      as long as no entry of another session haunts the address. */
  lemma SessionPacketMark(host: Host, w: World, cid: string, p: Packet)
    requires Inv(host, w) && cid in w.conn
    requires p.iif == TUN_DEV && ClientAddr(host, w.conn[cid].ip) == Some(p.src) && !Haunted(host, w, p.src)
    ensures MarkOf(w.s.kernel, p) == Carried(w, cid)
  {
    forall x | Holds(host, w.s, x, p.src) ensures x == cid && Live(w, cid) {
      assert Live(w, x);
      assert ClientAddr(host, w.conn[x].ip) == Some(p.src);
    }
    if Live(w, cid) {
      EntryMark(host, w.applied, w.s, w.account, cid, p);
    } else {
      NoEntryMark(host, w.applied, w.s, w.account, p);
    }
  }

  /** The default and the upstreams are applied as stored. */
  predicate Current(w: World) {
    w.applied.upstreams == w.stored.upstreams && w.applied.default == w.stored.default
  }

  /** The tracker is up to date with this session: entered, for its assigned upstream, exactly if overridden. */
  ghost predicate Settled(w: World, cid: string) {
    cid in w.conn &&
      var cn := w.conn[cid].cn;
      if cn in w.stored.perCN then
        Live(w, cid) && cid in w.account.given && w.account.given[cid] == TableFor(w.stored, cn)
      else !Live(w, cid)
  }

  lemma DefaultIs(host: Host, c: Config)
    requires WellKept(host, c)
    ensures DefaultMarkValue(c) == MarkFor(c, c.default)
  {
  }

  lemma SettledCarries(host: Host, w: World, cid: string)
    requires Inv(host, w) && Current(w) && Settled(w, cid)
    ensures Carried(w, cid) == MarkFor(w.stored, Resolve(w.stored, w.conn[cid].cn))
  {
    DefaultIs(host, w.applied);
    ResolvesToDefined(host, w.stored, w.conn[cid].cn);
  }

  /** At every point of every run: a packet of a connected session is marked with the upstream its client
      resolves to if the tracker is up to date with the session; and otherwise exactly if what it does carry
      happens to be the same. */
  lemma SessionRoutedAsConfigured(host: Host, w: World, cid: string, p: Packet)
    requires Reachable(host, w) && cid in w.conn
    requires p.iif == TUN_DEV && ClientAddr(host, w.conn[cid].ip) == Some(p.src) && !Haunted(host, w, p.src)
    ensures var right := MarkFor(w.stored, Resolve(w.stored, w.conn[cid].cn));
      && (Current(w) && Settled(w, cid) ==> MarkOf(w.s.kernel, p) == right)
      && (MarkOf(w.s.kernel, p) == right <==> Carried(w, cid) == right)
  {
    ReachableInv(host, w);
    SessionPacketMark(host, w, cid, p);
    if Current(w) && Settled(w, cid) {
      SettledCarries(host, w, cid);
    }
  }

  /** At every point of every run: tunnel packets from an address that neither a session nor a left-over rule
      holds get the applied default's mark, and a packet from elsewhere is never marked, whatever its source. */
  lemma OtherPackets(host: Host, w: World, p: Packet)
    requires Reachable(host, w)
    ensures p.iif != TUN_DEV ==> MarkOf(w.s.kernel, p) == 0
    ensures p.iif == TUN_DEV && !Haunted(host, w, p.src)
        && (forall cid :: cid in w.conn ==> ClientAddr(host, w.conn[cid].ip) != Some(p.src))
      ==> MarkOf(w.s.kernel, p) == MarkFor(w.applied, w.applied.default)
  {
    ReachableInv(host, w);
    if p.iif != TUN_DEV {
      OffTunnelMark(host, w.applied, w.s, w.account, p);
    } else if
      && !Haunted(host, w, p.src)
      && (forall cid :: cid in w.conn ==> ClientAddr(host, w.conn[cid].ip) != Some(p.src))
    {
      NobodyHolds(host, w, p.src);
      NoEntryMark(host, w.applied, w.s, w.account, p);
      DefaultIs(host, w.applied);
    }
  }

  lemma NobodyHolds(host: Host, w: World, src: nat)
    requires !Haunted(host, w, src) && forall cid :: cid in w.conn ==> ClientAddr(host, w.conn[cid].ip) != Some(src)
    ensures forall x :: !Holds(host, w.s, x, src)
  {
    forall x ensures !Holds(host, w.s, x, src) {
      assert Live(w, x) ==> ClientAddr(host, w.conn[x].ip) != Some(src);
    }
  }

  /** Applying the stored configuration brings exactly these sessions up to date: those without an override,
      and those with an entry of their own. It makes no entry for a session that has none. */
  lemma ApplySettles(host: Host, w: World, o: Outcomes, order: seq<string>, cid: string)
    requires Inv(host, w) && Admissible(host, w, Applied(w.stored, o, order)) && cid in w.conn
    ensures Settled(Next(host, w, Applied(w.stored, o, order)), cid)
      <==> (w.conn[cid].cn in w.stored.perCN ==> Live(w, cid))
  {
    TrackedAddresses(host, w.applied, w.s, w.account);
    ApplyAccounted(host, w.s, w.stored, o, order);
  }

  /** The compiled ruleset does not mention the overrides. */
  lemma SameRuleset(host: Host, c: Config, c': Config, t: Table)
    requires c'.upstreams == c.upstreams && c'.default == c.default && "" !in c.perCN && "" !in c'.perCN
    requires Compiled(host, c, t)
    ensures Compiled(host, c', t)
  {
  }

  /** End to end, at every point of every run, whichever interfaces exist: the first packet of a session with
      which the tracker is up to date leaves through the upstream the configuration resolves its name to, by
      its own relay or, if the last Apply could guard it, its interface, masqueraded; or is dropped; or, with
      no upstream, takes the host's default route, masqueraded. */
  lemma TrafficFollowsConfig(host: Host, w: World, cid: string, p: Packet, up: string -> bool, hostDev: string)
    requires Reachable(host, w) && Current(w) && Settled(w, cid)
    requires p.iif == TUN_DEV && ClientAddr(host, w.conn[cid].ip) == Some(p.src) && !Haunted(host, w, p.src)
    ensures AsConfigured(host, w.guarded, w.stored, Resolve(w.stored, w.conn[cid].cn), p.tcp,
                         FateOf(w.s.kernel, p, up, hostDev))
  {
    SessionRoutedAsConfigured(host, w, cid, p);
    ReachableInv(host, w);
    var c, k := w.stored, w.s.kernel;
    SameRuleset(host, w.applied, c, k.nft.value);
    match Find(c, Resolve(c, w.conn[cid].cn))
    case None => UnmarkedFate(host, k, c, p, up, hostDev);
    case Some(u) => MarkedFate(host, k, c, u, p, up, hostDev);
  }
}
