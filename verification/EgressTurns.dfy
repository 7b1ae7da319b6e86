/**
 The runs in which everything is in order: each callback is handled before anything
 else happens, each exit is cleared before the next client connects, and requests
 do not overlap. Between such turns the tracker agrees with the connections and the
 configuration, exactly as long as every assignment rewrites the right sessions;
 and each way to leave that order is shown, with what it does to the traffic.
 */
module EgressTurns {
  import opened Wrappers
  import opened UpstreamConfig
  import opened Netfilter
  import opened Egress
  import opened TrackerAgreement
  import opened RuleAccounts
  import opened PacketFates
  import opened EgressRuns

  datatype Turn =
    | Changed(e: Edit, o: Outcomes, order: seq<string>)       // add, delete or default, then Apply
    | Joined(cid: string, cn: string, ip: string)             // connected, then ESTABLISHED
    | Left(cid: string)                                       // dropped, then DISCONNECT
    | Reassigned(cn: string, id: string, clear: bool, listed: Option<(string, string)>)  // assigned, then the session
                                                              // and address listed for the client rewritten
    | Restarted(order: seq<string>)                           // exited, then OnExit

  ghost predicate TurnOk(host: Host, w: World, turn: Turn) {
    match turn
    case Changed(e, o, order) => !e.AssignTo? && IsOrder(order, w.s) && NftOk(w.s, o, order)
    case Joined(cid, cn, ip) => Admissible(host, w, Connected(cid, cn, ip))
    case Left(_) => true
    case Reassigned(cn, id, clear, _) => Assign(host, w.stored, cn, id, clear).Ok?
    case Restarted(order) => IsOrder(order, w.s)
  }

  ghost function Played(host: Host, w: World, turn: Turn): World {
    match turn
    case Changed(e, o, order) =>
      var w1 := Next(host, w, Stored(e));
      Next(host, w1, Applied(w1.stored, o, order))
    case Joined(cid, cn, ip) => Next(host, Next(host, w, Connected(cid, cn, ip)), Established(cid, cn, ip, w.stored))
    case Left(cid) => Next(host, Next(host, w, HungUp(cid)), Disconnected(cid))
    case Reassigned(cn, id, clear, listed) =>
      var w1 := Next(host, w, Stored(AssignTo(cn, id, clear)));
      if listed.Some? then Next(host, w1, Rewritten(listed.value.0, cn, listed.value.1, w1.stored)) else w1
    case Restarted(order) => Next(host, Next(host, w, Exited), Cleared(order))
  }

  /** Tracker, connections and configuration agree: every entry is a connected session's, every connected
      session is settled, no rule is orphaned. */
  ghost predicate Agreed(host: Host, w: World) {
    Inv(host, w) && Current(w) && EntriesAgree(w)
  }

  ghost predicate EntriesAgree(w: World) {
    && w.account.orphans == map[] && w.account.given.Keys == w.s.tracked.Keys
    && (forall cid :: cid in w.s.tracked ==> Live(w, cid))
    && (forall cid :: cid in w.conn ==> Settled(w, cid))
  }

  lemma NothingHaunted(host: Host, w: World, src: nat)
    requires Agreed(host, w)
    ensures !Haunted(host, w, src)
  {
  }

  /** While they agree, all traffic goes where the configuration says: every session's, and the rest. */
  lemma AgreedTraffic(host: Host, w: World, p: Packet, up: string -> bool, hostDev: string)
    requires Reachable(host, w) && Agreed(host, w)
    ensures forall cid :: cid in w.conn && p.iif == TUN_DEV && ClientAddr(host, w.conn[cid].ip) == Some(p.src) ==>
      AsConfigured(host, w.guarded, w.stored, Resolve(w.stored, w.conn[cid].cn), p.tcp,
                   FateOf(w.s.kernel, p, up, hostDev))
    ensures p.iif == TUN_DEV && (forall cid :: cid in w.conn ==> ClientAddr(host, w.conn[cid].ip) != Some(p.src)) ==>
      MarkOf(w.s.kernel, p) == MarkFor(w.stored, w.stored.default)
  {
    NothingHaunted(host, w, p.src);
    OtherPackets(host, w, p);
    forall cid | cid in w.conn && p.iif == TUN_DEV && ClientAddr(host, w.conn[cid].ip) == Some(p.src)
      ensures AsConfigured(host, w.guarded, w.stored, Resolve(w.stored, w.conn[cid].cn), p.tcp,
                           FateOf(w.s.kernel, p, up, hostDev))
    {
      TrafficFollowsConfig(host, w, cid, p, up, hostDev);
    }
  }

  // ----- turns keep agreement -----

  lemma ChangedAgreed(host: Host, w: World, turn: Turn)
    requires Agreed(host, w) && turn.Changed? && TurnOk(host, w, turn)
    ensures Agreed(host, Played(host, w, turn))
  {
    var w1 := Next(host, w, Stored(turn.e));
    EditKeepsConfig(host, w.stored, turn.e);
    StepKeepsInv(host, w1, Applied(w1.stored, turn.o, turn.order));
    ChangedEntries(host, w, turn);
  }

  lemma ChangedEntries(host: Host, w: World, turn: Turn)
    requires Agreed(host, w) && turn.Changed? && TurnOk(host, w, turn) && WellKept(host, Edited(host, w.stored, turn.e))
    ensures var w' := Played(host, w, turn);
      && (forall cid :: cid in w'.s.tracked ==> Live(w', cid))
      && (forall cid :: cid in w'.conn ==> Settled(w', cid))
  {
    var w', c := Played(host, w, turn), Edited(host, w.stored, turn.e);
    TrackedAddresses(host, w.applied, w.s, w.account);
    ApplyAccounted(host, w.s, c, turn.o, turn.order);
    forall cid | cid in w'.s.tracked ensures Live(w', cid) {
      assert Live(w, cid);
    }
    forall cid | cid in w'.conn ensures Settled(w', cid) {
      assert Settled(w, cid);
      if w.conn[cid].cn in c.perCN {
        EditsKeepOverrides(host, w.stored, turn.e, w.conn[cid].cn);
      }
    }
  }

  /** Every edit but an assignment leaves the remaining overrides as they were. */
  lemma EditsKeepOverrides(host: Host, c: Config, e: Edit, cn: string)
    requires !e.AssignTo? && cn in Edited(host, c, e).perCN
    ensures cn in c.perCN && Edited(host, c, e).perCN[cn] == c.perCN[cn]
  {
  }

  /** The world after a client joined: entered exactly if it is overridden. */
  ghost predicate Joins(w: World, cid: string, cn: string, ip: string, w': World) {
    && w'.stored == w.stored && w'.applied == w.applied && w'.conn == w.conn[cid := Session(cn, ip)]
    && w'.account.orphans == w.account.orphans
    && if cn in w.stored.perCN then
         && cid in w'.s.tracked && w'.s.tracked == w.s.tracked[cid := w'.s.tracked[cid]]
         && w'.s.tracked[cid].ip == ip && w'.s.tracked[cid].cn == cn
         && w'.account.given == w.account.given[cid := TableFor(w.stored, cn)]
       else w'.s == w.s && w'.account == w.account
  }

  lemma PlayedJoins(host: Host, w: World, cid: string, cn: string, ip: string) returns (w': World)
    requires Inv(host, w) && Admissible(host, w, Connected(cid, cn, ip)) && cid !in w.s.tracked
    ensures w' == Played(host, w, Joined(cid, cn, ip)) && Inv(host, w') && Joins(w, cid, cn, ip, w')
  {
    var w1 := Next(host, w, Connected(cid, cn, ip));
    w' := Next(host, w1, Established(cid, cn, ip, w.stored));
    StepKeepsInv(host, w, Connected(cid, cn, ip));
    StepKeepsInv(host, w1, Established(cid, cn, ip, w.stored));
    EstablishedAccounted(host, w1.applied, w1.s, w1.account, cid, cn, ip, w.stored);
    ResolvesToDefined(host, w.stored, cn);
  }

  lemma JoinedEntriesAgree(w: World, cid: string, cn: string, ip: string, w': World)
    requires EntriesAgree(w) && cid !in w.conn && Joins(w, cid, cn, ip, w')
    ensures EntriesAgree(w')
  {
    forall x | x in w'.s.tracked ensures Live(w', x) {
      assert x != cid ==> Live(w, x);
    }
    forall x | x in w'.conn ensures Settled(w', x) {
      assert x != cid ==> Settled(w, x);
      assert cid in w.s.tracked ==> Live(w, cid);
    }
  }

  lemma FreshId(w: World, cid: string)
    requires EntriesAgree(w) && cid !in w.conn
    ensures cid !in w.s.tracked
  {
    assert cid in w.s.tracked ==> Live(w, cid);
  }

  lemma JoinedAgreed(host: Host, w: World, turn: Turn)
    requires Agreed(host, w) && turn.Joined? && TurnOk(host, w, turn)
    ensures Agreed(host, Played(host, w, turn))
  {
    FreshId(w, turn.cid);
    var w' := PlayedJoins(host, w, turn.cid, turn.cn, turn.ip);
    JoinedEntriesAgree(w, turn.cid, turn.cn, turn.ip, w');
  }

  lemma LeftAgreed(host: Host, w: World, turn: Turn)
    requires Agreed(host, w) && turn.Left?
    ensures Agreed(host, Played(host, w, turn))
  {
    var w1, w' := Next(host, w, HungUp(turn.cid)), Played(host, w, turn);
    StepKeepsInv(host, w, HungUp(turn.cid));
    StepKeepsInv(host, w1, Disconnected(turn.cid));
    UninstallAccounted(host, w.applied, w.s, w.account, turn.cid);
    forall cid | cid in w'.s.tracked ensures Live(w', cid) {
      assert Live(w, cid);
    }
    forall cid | cid in w'.conn ensures Settled(w', cid) {
      assert Settled(w, cid);
    }
  }

  lemma RestartedAgreed(host: Host, w: World, turn: Turn)
    requires Agreed(host, w) && turn.Restarted? && TurnOk(host, w, turn)
    ensures Agreed(host, Played(host, w, turn))
  {
    var w1 := Next(host, w, Exited);
    StepKeepsInv(host, w, Exited);
    StepKeepsInv(host, w1, Cleared(turn.order));
    ClearAllAccounted(host, w.applied, w.s, w.account, turn.order);
  }

  // ----- an assignment keeps agreement exactly if it rewrites the right sessions -----

  /** The assignment says what is stored already. */
  predicate Repeats(c: Config, cn: string, id: string, clear: bool) {
    if clear then cn !in c.perCN else cn in c.perCN && c.perCN[cn] == id
  }

  /** The listed session is x, at x's own address if it is to get a rule. */
  predicate Rewrites(w: World, clear: bool, listed: Option<(string, string)>, x: string)
    requires x in w.conn
  {
    listed.Some? && listed.value.0 == x && (clear || listed.value.1 == w.conn[x].ip)
  }

  /** What a caller could check: unless the assignment changes nothing, the listed session is the client's
      only one; and it is connected as listed if it is to get a rule, or the client's if it is to lose one. */
  ghost predicate GoodAssign(host: Host, w: World, turn: Turn)
    requires turn.Reassigned?
  {
    var Reassigned(cn, id, clear, listed) := turn;
    && (Repeats(w.stored, cn, id, clear)
        || forall x :: x in w.conn && w.conn[x].cn == cn ==> Rewrites(w, clear, listed, x))
    && (listed.Some? ==>
          var (cid, ip) := listed.value;
          if clear then cid in w.s.tracked ==> cid in w.conn && w.conn[cid].cn == cn
          else ClientAddr(host, ip).Some? ==> cid in w.conn && w.conn[cid] == Session(cn, ip))
  }

  /** The configuration after an assignment. */
  ghost function AssignedConfig(c: Config, turn: Turn): Config
    requires turn.Reassigned?
  {
    c.(perCN := if turn.clear then c.perCN - {turn.cn} else c.perCN[turn.cn := turn.id])
  }

  /** The world after an assignment and its rewrite: at most the listed entry changes. */
  ghost predicate Reassigns(host: Host, w: World, turn: Turn, w': World)
    requires turn.Reassigned?
  {
    && w'.stored == AssignedConfig(w.stored, turn) && w'.applied == w.applied && w'.conn == w.conn
    && w'.account.orphans == w.account.orphans
    && if turn.listed.None? then w'.s == w.s && w'.account == w.account
       else
         var (cid, ip) := turn.listed.value;
         if turn.clear then w'.s.tracked == w.s.tracked - {cid} && w'.account.given == w.account.given - {cid}
         else if ClientAddr(host, ip).Some? then
           && cid in w'.s.tracked && w'.s.tracked == w.s.tracked[cid := w'.s.tracked[cid]]
           && w'.s.tracked[cid].ip == ip && w'.s.tracked[cid].cn == turn.cn
           && w'.account.given == w.account.given[cid := TableFor(w'.stored, turn.cn)]
         else w'.s.tracked == w.s.tracked && w'.account.given == w.account.given
  }

  lemma AssignedStored(host: Host, w: World, turn: Turn) returns (w1: World)
    requires Inv(host, w) && turn.Reassigned? && TurnOk(host, w, turn)
    ensures w1 == Next(host, w, Stored(AssignTo(turn.cn, turn.id, turn.clear))) && Inv(host, w1)
    ensures w1 == w.(stored := AssignedConfig(w.stored, turn))
    ensures !turn.clear ==> Assigned(w1.stored, turn.cn).Some?
  {
    w1 := Next(host, w, Stored(AssignTo(turn.cn, turn.id, turn.clear)));
    StepKeepsInv(host, w, Stored(AssignTo(turn.cn, turn.id, turn.clear)));
    AssignExact(host, w.stored, turn.cn, turn.id, turn.clear);
    ResolvesToDefined(host, w1.stored, turn.cn);
  }

  lemma PlayedReassigns(host: Host, w: World, turn: Turn) returns (w': World)
    requires Inv(host, w) && turn.Reassigned? && TurnOk(host, w, turn)
    ensures w' == Played(host, w, turn) && Inv(host, w') && Reassigns(host, w, turn, w')
    ensures !turn.clear ==> Assigned(w'.stored, turn.cn).Some?
  {
    var w1 := AssignedStored(host, w, turn);
    w' := w1;
    if turn.listed.Some? {
      w' := PlayedRewrites(host, w1, turn);
    }
  }

  lemma PlayedRewrites(host: Host, w1: World, turn: Turn) returns (w': World)
    requires Inv(host, w1) && turn.Reassigned? && turn.listed.Some?
    requires turn.cn in w1.stored.perCN <==> !turn.clear
    requires !turn.clear ==> Assigned(w1.stored, turn.cn).Some?
    ensures w' == Next(host, w1, Rewritten(turn.listed.value.0, turn.cn, turn.listed.value.1, w1.stored))
      && Inv(host, w')
    ensures var (cid, ip) := turn.listed.value;
      && w'.stored == w1.stored && w'.applied == w1.applied && w'.conn == w1.conn
      && w'.account.orphans == w1.account.orphans
      && if turn.clear then w'.s.tracked == w1.s.tracked - {cid} && w'.account.given == w1.account.given - {cid}
         else if ClientAddr(host, ip).Some? then
           && cid in w'.s.tracked && w'.s.tracked == w1.s.tracked[cid := w'.s.tracked[cid]]
           && w'.s.tracked[cid].ip == ip && w'.s.tracked[cid].cn == turn.cn
           && w'.account.given == w1.account.given[cid := TableFor(w'.stored, turn.cn)]
         else w'.s.tracked == w1.s.tracked && w'.account.given == w1.account.given
  {
    var (cid, ip) := turn.listed.value;
    w' := Next(host, w1, Rewritten(cid, turn.cn, ip, w1.stored));
    StepKeepsInv(host, w1, Rewritten(cid, turn.cn, ip, w1.stored));
    RewrittenAccounted(host, w1.applied, w1.s, w1.account, cid, turn.cn, ip, w1.stored);
  }

  /** Only the assigned client's table changes. */
  lemma OtherTables(c: Config, turn: Turn, other: string)
    requires turn.Reassigned? && other != turn.cn
    ensures TableFor(AssignedConfig(c, turn), other) == TableFor(c, other)
    ensures other in AssignedConfig(c, turn).perCN <==> other in c.perCN
  {
  }

  lemma GoodAssignEntry(host: Host, w: World, turn: Turn, w': World, cid: string)
    requires EntriesAgree(w) && turn.Reassigned? && GoodAssign(host, w, turn)
    requires Reassigns(host, w, turn, w') && cid in w'.s.tracked
    ensures Live(w', cid)
  {
    assert cid in w.s.tracked ==> Live(w, cid);
  }

  lemma GoodAssignSession(host: Host, w: World, turn: Turn, w': World, cid: string)
    requires EntriesAgree(w) && turn.Reassigned? && GoodAssign(host, w, turn)
    requires Reassigns(host, w, turn, w') && cid in w.conn
    requires ClientAddr(host, w.conn[cid].ip).Some?
    ensures Settled(w', cid)
  {
    assert Settled(w, cid);
    if w.conn[cid].cn != turn.cn {
      OtherTables(w.stored, turn, w.conn[cid].cn);
    }
  }

  lemma GoodAssignAgreed(host: Host, w: World, turn: Turn)
    requires Agreed(host, w) && turn.Reassigned? && TurnOk(host, w, turn) && GoodAssign(host, w, turn)
    ensures Agreed(host, Played(host, w, turn))
  {
    var w' := PlayedReassigns(host, w, turn);
    forall cid | cid in w'.s.tracked ensures Live(w', cid) {
      GoodAssignEntry(host, w, turn, w', cid);
    }
    forall cid | cid in w'.conn ensures Settled(w', cid) {
      GoodAssignSession(host, w, turn, w', cid);
    }
  }

  /** A session of the client that is not rewritten although the assignment changes something. */
  lemma MissedSession(host: Host, w: World, turn: Turn, w': World, x: string)
    requires EntriesAgree(w) && Valid(host, w.stored) && turn.Reassigned? && Reassigns(host, w, turn, w')
    requires !turn.clear ==> Assigned(w'.stored, turn.cn).Some?
    requires x in w.conn && w.conn[x].cn == turn.cn
    requires !Repeats(w.stored, turn.cn, turn.id, turn.clear) && !Rewrites(w, turn.clear, turn.listed, x)
    ensures !Settled(w', x)
  {
    assert Settled(w, x);
    if turn.clear {
      MissedClear(host, w, turn, w', x);
    } else {
      MissedSet(host, w, turn, w', x);
    }
  }

  lemma MissedClear(host: Host, w: World, turn: Turn, w': World, x: string)
    requires turn.Reassigned? && Reassigns(host, w, turn, w') && turn.clear
    requires x in w.conn && w.conn[x].cn == turn.cn && Settled(w, x)
    requires turn.cn in w.stored.perCN && !Rewrites(w, turn.clear, turn.listed, x)
    ensures !Settled(w', x)
  {
  }

  lemma MissedSet(host: Host, w: World, turn: Turn, w': World, x: string)
    requires Valid(host, w.stored) && turn.Reassigned? && Reassigns(host, w, turn, w') && !turn.clear
    requires Assigned(w'.stored, turn.cn).Some?
    requires x in w.conn && w.conn[x].cn == turn.cn && Settled(w, x)
    requires !Repeats(w.stored, turn.cn, turn.id, turn.clear) && !Rewrites(w, turn.clear, turn.listed, x)
    ensures !Settled(w', x)
  {
    if turn.cn in w.stored.perCN {
      ResolvesToDefined(host, w.stored, turn.cn);
      DifferentTables(host, w.stored, w.stored.perCN[turn.cn], turn.id);
    }
  }

  lemma DifferentTables(host: Host, c: Config, id: string, other: string)
    requires Valid(host, c) && id != other && Find(c, id).Some? && Find(c, other).Some?
    ensures Find(c, id).value.table != Find(c, other).value.table
  {
    var u, v := Find(c, id).value, Find(c, other).value;
    var i :| 0 <= i < |c.upstreams| && c.upstreams[i] == u;
    var j :| 0 <= j < |c.upstreams| && c.upstreams[j] == v;
  }

  /** A rewrite of a session that is not connected as listed. */
  lemma WrongTarget(host: Host, w: World, turn: Turn, w': World)
    requires EntriesAgree(w) && turn.Reassigned? && turn.listed.Some? && Reassigns(host, w, turn, w')
    requires var (cid, ip) := turn.listed.value;
      if turn.clear then cid in w.s.tracked && !(cid in w.conn && w.conn[cid].cn == turn.cn)
      else ClientAddr(host, ip).Some? && !(cid in w.conn && w.conn[cid] == Session(turn.cn, ip))
    ensures !Agreed(host, w')
  {
    var cid := turn.listed.value.0;
    if turn.clear {
      assert Live(w, cid) && Settled(w, cid);
      OtherTables(w.stored, turn, w.conn[cid].cn);
      assert !Settled(w', cid);
    } else {
      assert cid in w'.s.tracked && !Live(w', cid);
    }
  }

  /** Agreement survives a turn exactly if, where the turn is an assignment, it rewrites the right sessions. */
  lemma TurnKeepsAgreement(host: Host, w: World, turn: Turn)
    requires Agreed(host, w) && TurnOk(host, w, turn)
    ensures Agreed(host, Played(host, w, turn)) <==> (turn.Reassigned? ==> GoodAssign(host, w, turn))
  {
    match turn
    case Changed(_, _, _) => ChangedAgreed(host, w, turn);
    case Joined(_, _, _) => JoinedAgreed(host, w, turn);
    case Left(_) => LeftAgreed(host, w, turn);
    case Restarted(_) => RestartedAgreed(host, w, turn);
    case Reassigned(cn, id, clear, listed) =>
      if GoodAssign(host, w, turn) {
        GoodAssignAgreed(host, w, turn);
      } else if
        && !Repeats(w.stored, cn, id, clear)
        && (exists x :: x in w.conn && w.conn[x].cn == cn && !Rewrites(w, clear, listed, x))
      {
        var x :| x in w.conn && w.conn[x].cn == cn && !Rewrites(w, clear, listed, x);
        var w' := PlayedReassigns(host, w, turn);
        MissedSession(host, w, turn, w', x);
      } else {
        var w' := PlayedReassigns(host, w, turn);
        WrongTarget(host, w, turn, w');
      }
  }

  // ----- runs of turns -----

  ghost predicate Playable(host: Host, w: World, turns: seq<Turn>)
    decreases |turns|
  {
    turns == [] || (TurnOk(host, w, turns[0]) && Playable(host, Played(host, w, turns[0]), turns[1..]))
  }

  ghost predicate AgreedThroughout(host: Host, w: World, turns: seq<Turn>)
    decreases |turns|
  {
    Agreed(host, w) && (turns == [] || AgreedThroughout(host, Played(host, w, turns[0]), turns[1..]))
  }

  ghost predicate Orderly(host: Host, w: World, turns: seq<Turn>)
    decreases |turns|
  {
    turns == []
    || ((turns[0].Reassigned? ==> GoodAssign(host, w, turns[0]))
      && Orderly(host, Played(host, w, turns[0]), turns[1..]))
  }

  /** A run of turns agrees at every point between them exactly if each of its assignments rewrites the right
      sessions. */
  lemma {:induction false} AgreedExactlyWhenOrderly(host: Host, w: World, turns: seq<Turn>)
    requires Agreed(host, w) && Playable(host, w, turns)
    ensures AgreedThroughout(host, w, turns) <==> Orderly(host, w, turns)
    decreases |turns|
  {
    if turns != [] {
      var w' := Played(host, w, turns[0]);
      TurnKeepsAgreement(host, w, turns[0]);
      if Agreed(host, w') {
        AgreedExactlyWhenOrderly(host, w', turns[1..]);
      }
    }
  }

  lemma PlayedReachable(host: Host, w: World, turn: Turn)
    requires Reachable(host, w) && TurnOk(host, w, turn)
    ensures Reachable(host, Played(host, w, turn))
  {
    ReachableInv(host, w);
    match turn
    case Changed(e, o, order) =>
      EditKeepsConfig(host, w.stored, e);
      ReachableOn(host, w, Stored(e));
      ReachableOn(host, Next(host, w, Stored(e)), Applied(Edited(host, w.stored, e), o, order));
    case Joined(cid, cn, ip) =>
      ReachableOn(host, w, Connected(cid, cn, ip));
      ReachableOn(host, Next(host, w, Connected(cid, cn, ip)), Established(cid, cn, ip, w.stored));
    case Left(cid) =>
      ReachableOn(host, w, HungUp(cid));
      ReachableOn(host, Next(host, w, HungUp(cid)), Disconnected(cid));
    case Reassigned(cn, id, clear, listed) =>
      var w1 := Next(host, w, Stored(AssignTo(cn, id, clear)));
      ReachableOn(host, w, Stored(AssignTo(cn, id, clear)));
      if listed.Some? {
        ReachableOn(host, w1, Rewritten(listed.value.0, cn, listed.value.1, w1.stored));
      }
    case Restarted(order) =>
      ReachableOn(host, w, Exited);
      ReachableOn(host, Next(host, w, Exited), Cleared(order));
  }

  lemma StartAgreed(host: Host, c: Config) returns (w: World)
    requires WellKept(host, c)
    ensures Reachable(host, w) && Agreed(host, w) && w.stored == c && w.conn == map[]
  {
    w := StartExists(host, c);
    StartReachable(host, w);
    InitInv(host, w);
  }

  lemma Join(host: Host, w: World, cid: string, cn: string, ip: string) returns (w': World)
    requires Reachable(host, w) && Agreed(host, w) && Admissible(host, w, Connected(cid, cn, ip))
    ensures w' == Played(host, w, Joined(cid, cn, ip)) && Reachable(host, w') && Agreed(host, w')
    ensures w'.stored == w.stored && w'.conn == w.conn[cid := Session(cn, ip)]
  {
    w' := Played(host, w, Joined(cid, cn, ip));
    JoinedConn(host, w, cid, cn, ip);
    PlayedReachable(host, w, Joined(cid, cn, ip));
    JoinedAgreed(host, w, Joined(cid, cn, ip));
  }

  lemma JoinedConn(host: Host, w: World, cid: string, cn: string, ip: string)
    ensures Played(host, w, Joined(cid, cn, ip)).stored == w.stored
    ensures Played(host, w, Joined(cid, cn, ip)).conn == w.conn[cid := Session(cn, ip)]
  {
  }

  /** Such runs exist: two sessions of one client, connected and settled, under any configuration. */
  lemma TwoSessions(host: Host, c: Config, cn: string, x: string, xip: string, y: string, yip: string)
    returns (w: World)
    requires WellKept(host, c) && x != y
    requires ClientAddr(host, xip).Some? && ClientAddr(host, yip).Some?
      && ClientAddr(host, xip) != ClientAddr(host, yip)
    ensures Reachable(host, w) && Agreed(host, w) && w.stored == c
    ensures w.conn == map[x := Session(cn, xip), y := Session(cn, yip)]
  {
    w := StartAgreed(host, c);
    w := Join(host, w, x, cn, xip);
    assert w.conn == map[x := Session(cn, xip)];
    w := Join(host, w, y, cn, yip);
  }

  // ----- what each way out of order does -----

  /** The rewrite adds a rule for the address that src is. */
  predicate RewritesAddress(host: Host, turn: Turn, src: nat)
    requires turn.Reassigned?
  {
    !turn.clear && turn.listed.Some? && ClientAddr(host, turn.listed.value.1) == Some(src)
  }

  /** A client with several sessions: assigning it, or clearing it, leaves every session that is not the
      rewritten one on the old upstream, overridden before or not, rewritten another or none. So its traffic
      is right exactly when the old and the new upstream have the same mark. The one exception is a session
      that was given the address which an earlier one of the client is still listed at: the rule meant for
      that one moves this one. */
  lemma OtherSessionKeepsOldMark(host: Host, w: World, turn: Turn, x: string, p: Packet)
    requires Agreed(host, w) && turn.Reassigned? && TurnOk(host, w, turn)
    requires x in w.conn && w.conn[x].cn == turn.cn
    requires turn.listed.Some? ==> turn.listed.value.0 != x
    requires p.iif == TUN_DEV && ClientAddr(host, w.conn[x].ip) == Some(p.src)
    ensures var w' := Played(host, w, turn);
      var before := MarkFor(w.stored, Resolve(w.stored, turn.cn));
      var after := MarkFor(w'.stored, Resolve(w'.stored, turn.cn));
      && MarkOf(w'.s.kernel, p) == (if RewritesAddress(host, turn, p.src) then after else before)
      && (MarkOf(w'.s.kernel, p) == after <==> before == after || RewritesAddress(host, turn, p.src))
  {
    if RewritesAddress(host, turn, p.src) {
      var w' := RewriteMarks(host, w, turn, p);
    } else {
      MissedMark(host, w, turn, x, p);
    }
  }

  /** Whoever has the address that the rewrite adds a rule for is routed by the assigned upstream. */
  lemma RewriteMarks(host: Host, w: World, turn: Turn, p: Packet) returns (w': World)
    requires Inv(host, w) && turn.Reassigned? && TurnOk(host, w, turn)
    requires p.iif == TUN_DEV && RewritesAddress(host, turn, p.src)
    ensures w' == Played(host, w, turn) && w'.stored == AssignedConfig(w.stored, turn) && w'.conn == w.conn
    ensures MarkOf(w'.s.kernel, p) == MarkFor(w'.stored, turn.id)
  {
    var w1 := AssignedStored(host, w, turn);
    var ev := Rewritten(turn.listed.value.0, turn.cn, turn.listed.value.1, w1.stored);
    w' := Next(host, w1, ev);
    LatestRuleMarks(host, w1, ev, p);
    TableIsMark(host, w1.stored, turn.cn);
  }

  lemma MissedMark(host: Host, w: World, turn: Turn, x: string, p: Packet)
    requires Agreed(host, w) && turn.Reassigned? && TurnOk(host, w, turn)
    requires x in w.conn && w.conn[x].cn == turn.cn && (turn.listed.Some? ==> turn.listed.value.0 != x)
    requires p.iif == TUN_DEV && ClientAddr(host, w.conn[x].ip) == Some(p.src)
    requires !RewritesAddress(host, turn, p.src)
    ensures MarkOf(Played(host, w, turn).s.kernel, p) == MarkFor(w.stored, Resolve(w.stored, turn.cn))
  {
    var w' := PlayedReassigns(host, w, turn);
    MissedCarries(host, w, turn, w', x);
    MissedUnhaunted(host, w, turn, w', p.src);
    SessionPacketMark(host, w', x, p);
    SettledCarries(host, w, x);
  }

  lemma MissedCarries(host: Host, w: World, turn: Turn, w': World, x: string)
    requires turn.Reassigned? && Reassigns(host, w, turn, w')
    requires turn.listed.Some? ==> turn.listed.value.0 != x
    ensures Carried(w', x) == Carried(w, x)
  {
  }

  lemma MissedUnhaunted(host: Host, w: World, turn: Turn, w': World, src: nat)
    requires EntriesAgree(w) && turn.Reassigned? && Reassigns(host, w, turn, w')
    requires !RewritesAddress(host, turn, src)
    ensures !Haunted(host, w', src)
  {
    forall cid | cid in w'.s.tracked && Holds(host, w'.s, cid, src) ensures Live(w', cid) {
      assert cid in w.s.tracked && Live(w, cid);
    }
  }

  /** The listed session has left, and its address is free. */
  ghost predicate Departed(host: Host, w: World, turn: Turn, src: nat)
    requires turn.Reassigned?
  {
    && turn.listed.Some? && turn.listed.value.0 !in w.conn && ClientAddr(host, turn.listed.value.1) == Some(src)
    && forall x :: x in w.conn ==> ClientAddr(host, w.conn[x].ip) != Some(src)
  }

  /** The status file lists a session that has left: its rule stays on the address it had. A client without
      an override that gets the address next is routed by it, and so is right exactly when the dead session's
      upstream has the default's mark. */
  lemma DepartedTarget(host: Host, w: World, turn: Turn, y: string, plain: string, p: Packet)
    returns (w1: World, w': World)
    requires Agreed(host, w) && turn.Reassigned? && !turn.clear && TurnOk(host, w, turn)
    requires Departed(host, w, turn, p.src) && p.iif == TUN_DEV
    requires plain != turn.cn && plain !in w.stored.perCN && y !in w.conn
    ensures w1 == Played(host, w, turn) && w' == Played(host, w1, Joined(y, plain, turn.listed.value.1))
    ensures TurnOk(host, w1, Joined(y, plain, turn.listed.value.1))
    ensures MarkOf(w'.s.kernel, p) == MarkFor(w'.stored, turn.id)
    ensures MarkOf(w'.s.kernel, p) == MarkFor(w'.stored, Resolve(w'.stored, plain))
      <==> MarkFor(w'.stored, turn.id) == MarkFor(w'.stored, w'.stored.default)
  {
    w1 := RewriteMarks(host, w, turn, p);
    w' := JoinedPlain(host, w1, y, plain, turn.listed.value.1);
  }

  lemma TableIsMark(host: Host, c: Config, cn: string)
    requires Valid(host, c) && cn in c.perCN
    ensures TableFor(c, cn) == MarkFor(c, c.perCN[cn])
  {
    ResolvesToDefined(host, c, cn);
  }

  /** A client without an override is not entered. */
  lemma JoinedPlain(host: Host, w: World, y: string, plain: string, ip: string) returns (w': World)
    requires plain !in w.stored.perCN
    ensures w' == Played(host, w, Joined(y, plain, ip))
    ensures w'.s == w.s && w'.account == w.account && w'.stored == w.stored
  {
    w' := Played(host, w, Joined(y, plain, ip));
  }

  /** ESTABLISHED is not reported, or not yet: the worker runs without management-client-auth, or the
      management connection is down. The session takes the default, which is right exactly when that has the
      mark of the upstream its client resolves to. */
  lemma UnreportedSession(host: Host, w: World, cid: string, cn: string, ip: string, p: Packet)
    requires Agreed(host, w) && Admissible(host, w, Connected(cid, cn, ip))
    requires p.iif == TUN_DEV && ClientAddr(host, ip) == Some(p.src)
    ensures var w', right := Next(host, w, Connected(cid, cn, ip)), MarkFor(w.stored, Resolve(w.stored, cn));
      && MarkOf(w'.s.kernel, p) == MarkFor(w.stored, w.stored.default)
      && (MarkOf(w'.s.kernel, p) == right <==> right == MarkFor(w.stored, w.stored.default))
  {
    var w' := Next(host, w, Connected(cid, cn, ip));
    StepKeepsInv(host, w, Connected(cid, cn, ip));
    ConnectedUnhaunted(host, w, cid, cn, ip, p.src);
    SessionPacketMark(host, w', cid, p);
    DefaultIs(host, w.applied);
  }

  lemma ConnectedUnhaunted(host: Host, w: World, cid: string, cn: string, ip: string, src: nat)
    requires EntriesAgree(w) && cid !in w.conn
    ensures var w' := Next(host, w, Connected(cid, cn, ip)); !Haunted(host, w', src) && !Live(w', cid)
  {
    var w' := Next(host, w, Connected(cid, cn, ip));
    forall x | x in w'.s.tracked ensures Live(w', x) && x != cid {
      assert Live(w, x);
    }
  }

  /** The world after a session is gone unreported and a client without an override got its address. */
  ghost function GoneUnreported(host: Host, w: World, cid: string, y: string, plain: string): World
    requires cid in w.conn
  {
    Played(host, Next(host, w, HungUp(cid)), Joined(y, plain, w.conn[cid].ip))
  }

  lemma GoneUnreportedReachable(host: Host, w: World, cid: string, y: string, plain: string)
    requires Reachable(host, w) && cid in w.conn && y !in w.conn
    ensures Reachable(host, GoneUnreported(host, w, cid, y, plain))
  {
    ReachableInv(host, w);
    ReachableOn(host, w, HungUp(cid));
    AddressFreed(host, w, cid, y, plain);
    PlayedReachable(host, Next(host, w, HungUp(cid)), Joined(y, plain, w.conn[cid].ip));
  }

  lemma AddressFreed(host: Host, w: World, cid: string, y: string, plain: string)
    requires Connections(host, w.conn) && cid in w.conn && y !in w.conn
    ensures Admissible(host, Next(host, w, HungUp(cid)), Connected(y, plain, w.conn[cid].ip))
  {
  }

  /** DISCONNECT is not reported: the entry outlives its session, and marks the next holder of the address. */
  lemma UnreportedDisconnect(host: Host, w: World, cid: string, y: string, plain: string, p: Packet)
    requires Agreed(host, w) && cid in w.conn && w.conn[cid].cn in w.stored.perCN
    requires plain !in w.stored.perCN && y !in w.conn
    requires p.iif == TUN_DEV && ClientAddr(host, w.conn[cid].ip) == Some(p.src)
    ensures var w', gone := GoneUnreported(host, w, cid, y, plain), MarkFor(w.stored, w.stored.perCN[w.conn[cid].cn]);
      && w'.stored == w.stored && MarkOf(w'.s.kernel, p) == gone
      && (MarkOf(w'.s.kernel, p) == MarkFor(w.stored, Resolve(w.stored, plain))
        <==> gone == MarkFor(w.stored, w.stored.default))
  {
    GonePlain(host, w, cid, y, plain);
    OwnMark(host, w, cid, p);
  }

  lemma GonePlain(host: Host, w: World, cid: string, y: string, plain: string)
    requires cid in w.conn && plain !in w.stored.perCN
    ensures GoneUnreported(host, w, cid, y, plain).s == w.s && GoneUnreported(host, w, cid, y, plain).stored == w.stored
  {
    var w' := JoinedPlain(host, Next(host, w, HungUp(cid)), y, plain, w.conn[cid].ip);
  }

  lemma OwnMark(host: Host, w: World, cid: string, p: Packet)
    requires Agreed(host, w) && cid in w.conn && w.conn[cid].cn in w.stored.perCN
    requires p.iif == TUN_DEV && ClientAddr(host, w.conn[cid].ip) == Some(p.src)
    ensures MarkOf(w.s.kernel, p) == MarkFor(w.stored, w.stored.perCN[w.conn[cid].cn])
  {
    OwnEntry(host, w, cid, p.src);
    EntryMark(host, w.applied, w.s, w.account, cid, p);
    TableIsMark(host, w.stored, w.conn[cid].cn);
  }

  lemma OwnEntry(host: Host, w: World, cid: string, src: nat)
    requires EntriesAgree(w) && Connections(host, w.conn) && cid in w.conn && w.conn[cid].cn in w.stored.perCN
    requires ClientAddr(host, w.conn[cid].ip) == Some(src)
    ensures forall x :: Holds(host, w.s, x, src) <==> x == cid
    ensures cid in w.account.given && w.account.given[cid] == TableFor(w.stored, w.conn[cid].cn)
  {
    assert Settled(w, cid) && Live(w, cid);
    forall x | Holds(host, w.s, x, src) ensures x == cid {
      assert Live(w, x);
    }
  }

  /** The world after an exit, a client of the next worker, and only then OnExit's ClearAll. */
  ghost function ClearedLate(host: Host, w: World, y: string, cn: string, ip: string, order: seq<string>): World {
    var w1 := Next(host, w, Exited);
    var w2 := Next(host, w1, Connected(y, cn, ip));
    var w3 := Next(host, w2, Established(y, cn, ip, w.stored));
    Next(host, w3, Cleared(order))
  }

  ghost predicate ClearsLate(host: Host, w: World, y: string, cn: string, ip: string, order: seq<string>) {
    && ClientAddr(host, ip).Some? && cn in w.stored.perCN
    && IsOrder(order, Establish(host, w.s, y, cn, ip, w.stored, Added).0)
  }

  lemma LateClearReachable(host: Host, w: World, y: string, cn: string, ip: string, order: seq<string>)
    requires Reachable(host, w) && ClearsLate(host, w, y, cn, ip, order)
    ensures Reachable(host, ClearedLate(host, w, y, cn, ip, order))
  {
    var w1 := Next(host, w, Exited);
    var w2 := Next(host, w1, Connected(y, cn, ip));
    var w3 := Next(host, w2, Established(y, cn, ip, w.stored));
    ReachableOn(host, w, Exited);
    ReachableOn(host, w1, Connected(y, cn, ip));
    ReachableOn(host, w2, Established(y, cn, ip, w.stored));
    ReachableOn(host, w3, Cleared(order));
  }

  /** The worker exits and the next one's first client connects. */
  lemma NextWorker(host: Host, w: World, y: string, cn: string, ip: string) returns (w': World)
    requires Inv(host, w) && ClientAddr(host, ip).Some?
    ensures w' == Next(host, Next(host, w, Exited), Connected(y, cn, ip)) && Inv(host, w')
    ensures w' == w.(conn := map[y := Session(cn, ip)], exits := w.exits + 1)
  {
    var w1 := Next(host, w, Exited);
    ConnectionStep(host, w, Exited);
    w' := Next(host, w1, Connected(y, cn, ip));
    ConnectionStep(host, w1, Connected(y, cn, ip));
  }

  /** An overridden client is entered, and an earlier entry of its session id orphaned. */
  lemma OverriddenEntered(host: Host, w: World, y: string, cn: string, ip: string) returns (w': World)
    requires Inv(host, w) && ClientAddr(host, ip).Some? && cn in w.stored.perCN
    ensures w' == Next(host, w, Established(y, cn, ip, w.stored)) && Inv(host, w')
    ensures w'.s == Establish(host, w.s, y, cn, ip, w.stored, Added).0
    ensures w'.account == WithRule(host, w.s, w.account, y, TableFor(w.stored, cn))
    ensures w' == w.(s := w'.s, account := w'.account)
  {
    w' := Next(host, w, Established(y, cn, ip, w.stored));
    TrackerStepInv(host, w, Established(y, cn, ip, w.stored));
    ResolvesToDefined(host, w.stored, cn);
  }

  lemma AllCleared(host: Host, w: World, order: seq<string>) returns (w': World)
    requires Inv(host, w) && Admissible(host, w, Cleared(order))
    ensures w' == Next(host, w, Cleared(order)) && Inv(host, w') && w'.s.tracked == map[]
    ensures w' == w.(s := w'.s, account := Account(map[], w.account.orphans), exits := w'.exits)
  {
    w' := Next(host, w, Cleared(order));
    TrackerStepInv(host, w, Cleared(order));
    ClearAllAccounted(host, w.applied, w.s, w.account, order);
  }

  lemma EnteredAndCleared(host: Host, w: World, y: string, cn: string, ip: string, order: seq<string>)
    returns (w': World)
    requires Inv(host, w) && w.exits > 0 && ClearsLate(host, w, y, cn, ip, order)
    ensures w' == Next(host, Next(host, w, Established(y, cn, ip, w.stored)), Cleared(order)) && Inv(host, w')
    ensures w'.conn == w.conn && w'.stored == w.stored && w'.applied == w.applied
    ensures w'.s.tracked == map[] && w'.account == Account(map[], WithRule(host, w.s, w.account, y, 0).orphans)
  {
    var w1 := OverriddenEntered(host, w, y, cn, ip);
    w' := AllCleared(host, w1, order);
  }

  /** What the account comes to: no entry, and the orphan of y's old one if it had one. */
  lemma LateClearWorld(host: Host, w: World, y: string, cn: string, ip: string, order: seq<string>) returns (w': World)
    requires Agreed(host, w) && ClearsLate(host, w, y, cn, ip, order)
    ensures w' == ClearedLate(host, w, y, cn, ip, order) && Inv(host, w')
    ensures w'.conn == map[y := Session(cn, ip)] && w'.stored == w.stored && w'.applied == w.applied
    ensures w'.s.tracked == map[] && w'.account == Account(map[], WithRule(host, w.s, w.account, y, 0).orphans)
  {
    var w2 := NextWorker(host, w, y, cn, ip);
    w' := EnteredAndCleared(host, w2, y, cn, ip, order);
  }

  /** The mark that is left for the late client: its session id's orphan's, if that is for its address. */
  ghost function LeftMark(host: Host, w: World, y: string, src: nat): int {
    if y in w.s.tracked && y in w.account.given && Holds(host, w.s, y, src) then w.account.given[y]
    else MarkFor(w.stored, w.stored.default)
  }

  /** OnExit runs after the next worker's first client has connected: ClearAll takes that client's rule too.
      Its traffic takes the default, or the orphan of an entry that its session id had for the same address;
      and so is right exactly when that has the mark of the client's upstream. */
  lemma LateClear(host: Host, w: World, y: string, cn: string, ip: string, order: seq<string>, p: Packet)
    requires Agreed(host, w) && ClearsLate(host, w, y, cn, ip, order)
    requires p.iif == TUN_DEV && ClientAddr(host, ip) == Some(p.src)
    ensures var w', right := ClearedLate(host, w, y, cn, ip, order), MarkFor(w.stored, Resolve(w.stored, cn));
      && w'.conn == map[y := Session(cn, ip)] && w'.stored == w.stored
      && MarkOf(w'.s.kernel, p) == LeftMark(host, w, y, p.src)
      && (MarkOf(w'.s.kernel, p) == right <==> right == LeftMark(host, w, y, p.src))
  {
    var w' := LateClearWorld(host, w, y, cn, ip, order);
    if y in w.s.tracked && y in w.account.given && Holds(host, w.s, y, p.src) {
      LeftOrphan(host, w, y, w', p.src);
      DecidedMark(host, w'.applied, w'.s, w'.account, w.s.tracked[y].handle, w.account.given[y], p);
    } else {
      NoOrphanLeft(host, w, y, w', p.src);
      NoEntryMark(host, w'.applied, w'.s, w'.account, p);
      DefaultIs(host, w.applied);
    }
  }

  lemma LeftOrphan(host: Host, w: World, y: string, w': World, src: nat)
    requires EntriesAgree(w) && y in w.s.tracked && y in w.account.given && Holds(host, w.s, y, src)
    requires w'.s.tracked == map[] && w'.account == Account(map[], WithRule(host, w.s, w.account, y, 0).orphans)
    ensures Decides(host, w'.s, w'.account, src, w.s.tracked[y].handle, w.account.given[y])
  {
    assert w'.account.orphans == map[w.s.tracked[y].handle := Orphan(src, w.account.given[y])];
  }

  lemma NoOrphanLeft(host: Host, w: World, y: string, w': World, src: nat)
    requires Agreed(host, w) && !(y in w.s.tracked && y in w.account.given && Holds(host, w.s, y, src))
    requires w'.s.tracked == map[] && w'.account == Account(map[], WithRule(host, w.s, w.account, y, 0).orphans)
    ensures !OrphanAt(w'.account, src) && forall x :: !Holds(host, w'.s, x, src)
  {
    TrackedAddresses(host, w.applied, w.s, w.account);
  }
}
