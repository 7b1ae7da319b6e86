/**
 Relay reconciliation (syncSOCKSRelays in internal/upstream/socks.go): one listener
 per SOCKS upstream, started and stopped only where the configuration changed.
 */
module RelaySync {
  import opened UpstreamConfig

  /** A live listener, by number, and the upstream it was started from. */
  datatype Relay = Relay(listener: nat, u: Upstream)

  type Relays = map<int, Relay>

  /** The live relays, the listeners closed so far, and the number of the next one. */
  datatype State = State(relays: Relays, closed: set<nat>, next: nat)

  /** Go's zero Upstream, which a missing map key reads as. */
  const ZERO_UPSTREAM := Upstream("", "", "", "", 0, 0, 0, "")

  /** The relay each port should have; of two upstreams on one port the later one. */
  function Wanted(ups: seq<Upstream>): map<int, Upstream> {
    if ups == [] then map[]
    else
      var u := ups[|ups| - 1];
      if u.IsSOCKS() then Wanted(ups[..|ups| - 1])[u.SocksPort() := u] else Wanted(ups[..|ups| - 1])
  }

  function WantedAt(want: map<int, Upstream>, port: int): Upstream {
    if port in want then want[port] else ZERO_UPSTREAM
  }

  ghost predicate Inv(s: State) {
    && (forall p :: p in s.relays ==> s.relays[p].u.IsSOCKS() && s.relays[p].listener < s.next)
    && (forall p, q :: p in s.relays && q in s.relays && p != q ==> s.relays[p].listener != s.relays[q].listener)
    && (forall n :: n in s.closed ==> n < s.next)
    && (forall p :: p in s.relays ==> s.relays[p].listener !in s.closed)
  }

  /** The relay at p already serves exactly the wanted upstream. */
  predicate Unchanged(s: State, want: map<int, Upstream>, p: int) {
    p in s.relays && p in want && s.relays[p].u == want[p]
  }

  /** A relay for u can be started on p: its URL parses and the port can be listened on. */
  predicate CanStart(host: Host, listens: int -> bool, p: int, u: Upstream) {
    host.parseURL(u.socks).Some? && listens(p)
  }

  /** What one sync does, in whatever order it ranges over its maps. */
  ghost predicate Synced(host: Host, listens: int -> bool, want: map<int, Upstream>, s: State, s': State, err: bool) {
    && (forall p :: p in s'.relays <==> Unchanged(s, want, p) || (p in want && CanStart(host, listens, p, want[p])))
    && (forall p :: p in s'.relays ==>
          if Unchanged(s, want, p) then s'.relays[p] == s.relays[p]
          else s'.relays[p].u == want[p] && s'.relays[p].listener >= s.next)
    && s'.closed == s.closed + Stale(s, want)
    && s'.next >= s.next && ((forall p :: p in s'.relays ==> Unchanged(s, want, p)) ==> s'.next == s.next)
    && (err <==> exists p :: p in want && p !in s'.relays)
  }

  /** The listeners that go: their relay is no longer wanted as it is. */
  function Stale(s: State, want: map<int, Upstream>): set<nat> {
    set p | p in s.relays && !Unchanged(s, want, p) :: s.relays[p].listener
  }

  /** The wanted ports outside todo have been seen to: started if possible, every other relay left alone. */
  ghost predicate Filled(host: Host, want: map<int, Upstream>, listens: int -> bool, todo: set<int>, s: State,
                         s': State, err: bool)
  {
    && (forall p :: p in s'.relays <==>
          p in s.relays || (p in want && p !in todo && CanStart(host, listens, p, want[p])))
    && (forall p :: p in s.relays ==> s'.relays[p] == s.relays[p])
    && (forall p :: p in s'.relays && p !in s.relays ==> s'.relays[p].u == want[p] && s'.relays[p].listener >= s.next)
    && s'.next >= s.next && (s'.relays == s.relays ==> s'.next == s.next)
    && (err <==> exists p :: p in want && p !in todo && p !in s'.relays)
  }

  /** The stale relays outside todo stopped, their listeners closed. */
  function Pruned(s: State, want: map<int, Upstream>, todo: set<int>): State {
    State(map p | p in s.relays && (p in todo || Unchanged(s, want, p)) :: s.relays[p],
          s.closed + set p | p in s.relays && p !in todo && !Unchanged(s, want, p) :: s.relays[p].listener, s.next)
  }

  lemma PrunedInv(s: State, want: map<int, Upstream>)
    requires Inv(s)
    ensures Inv(Pruned(s, want, {}))
  {
  }

  /** The two loops, one after the other, make one sync. */
  lemma PruneThenFill(host: Host, listens: int -> bool, want: map<int, Upstream>, s: State, s': State, err: bool)
    requires Inv(s) && Filled(host, want, listens, {}, Pruned(s, want, {}), s', err)
    requires s'.closed == Pruned(s, want, {}).closed
    ensures Synced(host, listens, want, s, s', err)
  {
    var kept := Pruned(s, want, {});
    assert forall p :: p in kept.relays <==> Unchanged(s, want, p);
    assert kept.closed == s.closed + Stale(s, want);
    if forall p :: p in s'.relays ==> Unchanged(s, want, p) {
      assert forall p :: p in s'.relays <==> p in kept.relays;
      assert s'.relays == kept.relays;
    }
  }

  lemma FilledAtFirst(host: Host, listens: int -> bool, want: map<int, Upstream>, s: State)
    ensures Filled(host, want, listens, want.Keys, s, s, false)
  {
  }

  /** One round of the second loop. */
  lemma FillOne(host: Host, listens: int -> bool, want: map<int, Upstream>, todo: set<int>, s: State, t: State,
                t': State, err: bool, p: int, ok: bool)
    requires Filled(host, want, listens, todo, s, t, err) && p in todo && p in want && t.closed == s.closed
    requires if p in t.relays then t' == t && ok
      else && ok == CanStart(host, listens, p, want[p])
           && t' == if ok then State(t.relays[p := Relay(t.next, want[p])], t.closed, t.next + 1) else t
    ensures Filled(host, want, listens, todo - {p}, s, t', err || !ok)
  {
    assert forall q :: q in todo - {p} <==> q in todo && q != p;
    if p !in t.relays && ok {
      assert t'.relays != s.relays by {
        assert p in t'.relays && p !in s.relays;
      }
    }
    if q :| q in want && q !in todo && q !in t.relays {
      assert q !in todo - {p} && q !in t'.relays;
    }
    if !ok {
      assert p !in todo - {p} && p !in t'.relays;
    }
  }

  lemma PruneOne(s: State, want: map<int, Upstream>, todo: set<int>, p: int)
    requires p in todo && p in s.relays
    ensures var t, t' := Pruned(s, want, todo), Pruned(s, want, todo - {p});
      && p in t.relays && t.relays[p] == s.relays[p]
      && t' == if Unchanged(s, want, p) then t else State(t.relays - {p}, t.closed + {t.relays[p].listener}, t.next)
  {
    var t, t' := Pruned(s, want, todo), Pruned(s, want, todo - {p});
    if Unchanged(s, want, p) {
      assert t'.relays == t.relays && t'.closed == t.closed;
    } else {
      assert t'.relays == t.relays - {p};
      assert t'.closed == t.closed + {t.relays[p].listener};
    }
  }

  lemma SomeMember(ports: set<int>)
    requires ports != {}
    ensures exists p :: p in ports
  {
    if forall p :: p !in ports {
      assert false;
    }
  }

  class RelayTable {
    var relays: Relays
    var closed: set<nat>
    var next: nat

    constructor ()
      ensures View() == State(map[], {}, 0) && Inv(View())
    {
      relays, closed, next := map[], {}, 0;
    }

    function View(): State
      reads this
    {
      State(relays, closed, next)
    }

    method Want(ups: seq<Upstream>) returns (want: map<int, Upstream>)
      ensures want == Wanted(ups)
    {
      want := map[];
      for i := 0 to |ups|
        invariant want == Wanted(ups[..i])
      {
        assert ups[..i + 1][..i] == ups[..i];
        if ups[i].IsSOCKS() {
          want := want[ups[i].SocksPort() := ups[i]];
        }
      }
      assert ups[..|ups|] == ups;
    }

    method StopStale(want: map<int, Upstream>)
      requires Inv(View()) && forall p :: p in want ==> want[p].IsSOCKS()
      modifies this
      ensures View() == Pruned(old(View()), want, {})
    {
      var todo := relays.Keys;
      assert relays == Pruned(View(), want, todo).relays;
      while todo != {}
        invariant todo <= old(relays).Keys
        invariant View() == Pruned(old(View()), want, todo)
      {
        SomeMember(todo);
        var p :| p in todo;
        PruneOne(old(View()), want, todo, p);
        if WantedAt(want, p) != relays[p].u {
          closed := closed + {relays[p].listener};
          relays := relays - {p};
        }
        todo := todo - {p};
      }
    }

    method StartRelay(host: Host, p: int, u: Upstream, listens: int -> bool) returns (ok: bool)
      requires Inv(View()) && u.IsSOCKS() && p !in relays
      modifies this
      ensures Inv(View()) && ok == CanStart(host, listens, p, u)
      ensures View() == if ok then State(old(relays)[p := Relay(old(next), u)], old(closed), old(next) + 1)
        else old(View())
    {
      if host.parseURL(u.socks).None? {
        return false;
      }
      if !listens(p) {
        return false;
      }
      relays := relays[p := Relay(next, u)];
      next := next + 1;
      return true;
    }

    method StartMissing(host: Host, want: map<int, Upstream>, listens: int -> bool) returns (err: bool)
      requires Inv(View()) && forall p :: p in want ==> want[p].IsSOCKS()
      modifies this
      ensures Inv(View()) && closed == old(closed)
      ensures Filled(host, want, listens, {}, old(View()), View(), err)
    {
      err := false;
      var todo := want.Keys;
      FilledAtFirst(host, listens, want, View());
      while todo != {}
        invariant todo <= want.Keys && closed == old(closed) && Inv(View())
        invariant Filled(host, want, listens, todo, old(View()), View(), err)
      {
        SomeMember(todo);
        var p :| p in todo;
        ghost var was := View();
        var ok := true;
        if p !in relays {
          ok := StartRelay(host, p, want[p], listens);
        }
        FillOne(host, listens, want, todo, old(View()), was, View(), err, p, ok);
        err := err || !ok;
        todo := todo - {p};
      }
    }

    method Sync(host: Host, ups: seq<Upstream>, listens: int -> bool) returns (err: bool)
      requires Inv(View())
      modifies this
      ensures Inv(View())
      ensures Synced(host, listens, Wanted(ups), old(View()), View(), err)
    {
      var want := Want(ups);
      WantedAreSOCKS(ups);
      StopStale(want);
      PrunedInv(old(View()), want);
      err := StartMissing(host, want, listens);
      PruneThenFill(host, listens, want, old(View()), View(), err);
    }
  }

  lemma {:induction false} WantedAreSOCKS(ups: seq<Upstream>)
    ensures forall p :: p in Wanted(ups) ==>
      Wanted(ups)[p].IsSOCKS() && Wanted(ups)[p] in ups && Wanted(ups)[p].SocksPort() == p
  {
    if ups != [] {
      WantedAreSOCKS(ups[..|ups| - 1]);
    }
  }

  /** Without a listen error the live relays are the wanted ones, each relay that was already right with its
      own listener still open, and exactly the others' listeners closed. */
  lemma SyncReachesWanted(host: Host, listens: int -> bool, want: map<int, Upstream>, s: State, s': State)
    requires Inv(s) && Synced(host, listens, want, s, s', false)
    ensures s'.relays.Keys == want.Keys
    ensures forall p :: p in want ==> s'.relays[p].u == want[p]
    ensures forall p :: Unchanged(s, want, p) ==>
      s'.relays[p].listener == s.relays[p].listener && s'.relays[p].listener !in s'.closed
    ensures forall p :: p in s.relays && !Unchanged(s, want, p) ==> s.relays[p].listener in s'.closed
  {
    forall p ensures p in s'.relays.Keys <==> p in want.Keys {
      assert p in want ==> p in s'.relays;
    }
  }

  /** Syncing again with the same configuration touches nothing. */
  lemma SyncAgainIsNoOp(host: Host, listens: int -> bool, listens': int -> bool, want: map<int, Upstream>,
                        s: State, s': State, s'': State, err: bool)
    requires Inv(s) && Synced(host, listens, want, s, s', false) && Synced(host, listens', want, s', s'', err)
    ensures s'' == s' && !err
  {
    SyncReachesWanted(host, listens, want, s, s');
    assert forall p :: p in s'.relays ==> Unchanged(s', want, p);
    forall p ensures p in s''.relays <==> p in s'.relays {
      assert p in s'.relays <==> p in want.Keys;
    }
    forall p | p in s''.relays ensures s''.relays[p] == s'.relays[p] {
      assert Unchanged(s', want, p);
    }
    assert s''.relays == s'.relays;
    assert Stale(s', want) == {};
  }

  /** Whatever could be started, no wrong relay is left: a wanted one runs exactly if it ran already or its URL
      parses and its port can be listened on, and an error is reported exactly if one is missing. */
  lemma FailedSyncIsPartial(host: Host, listens: int -> bool, want: map<int, Upstream>, s: State, s': State, err: bool)
    requires Inv(s) && Synced(host, listens, want, s, s', err)
    ensures forall p :: p in s'.relays ==> p in want && s'.relays[p].u == want[p]
    ensures forall p :: p in want ==>
      (p in s'.relays <==> Unchanged(s, want, p) || (host.parseURL(want[p].socks).Some? && listens(p)))
    ensures err <==> s'.relays.Keys != want.Keys
  {
    if p :| p in want && p !in s'.relays {
      assert p in want.Keys && p !in s'.relays.Keys;
    } else {
      forall p ensures p in s'.relays.Keys <==> p in want.Keys {
        assert p in want ==> p in s'.relays;
      }
    }
  }

  /** In a valid configuration the wanted relays are exactly the SOCKS upstreams, each on its own port. */
  lemma {:induction false} WantedIsEverySOCKS(ups: seq<Upstream>, i: nat)
    requires DistinctTables(ups) && i < |ups| && ups[i].IsSOCKS()
    ensures ups[i].SocksPort() in Wanted(ups) && Wanted(ups)[ups[i].SocksPort()] == ups[i]
  {
    var init := ups[..|ups| - 1];
    if i < |ups| - 1 {
      assert ups[i].table != ups[|ups| - 1].table;
      assert init[i] == ups[i];
      WantedIsEverySOCKS(init, i);
    }
  }
}
