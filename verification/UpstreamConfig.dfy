/**
 The upstream configuration (internal/upstream/upstream.go): the admin's list of
 egresses, the server-wide default and the per-CN overrides, with the four edits
 that the CLI and the API make to it.
 */
module UpstreamConfig {
  import opened Wrappers

  const TABLE_BASE := 100
  const MAX_UPSTREAMS := 64
  const RULE_PRIO_BASE := 20000
  const SOCKS_PORT_BASE := 20000
  const MAX_NAME_LEN := 64
  const MAX_IFACE_LEN := 15

  datatype Upstream = Upstream(
    id: string, iface: string, gateway: string, socks: string,
    dialTimeout: int, handshakeTimeout: int, table: int, description: string)
  {
    predicate IsSOCKS() { socks != "" }

    function SocksPort(): int { SOCKS_PORT_BASE + (table - TABLE_BASE) }
  }

  datatype Config = Config(upstreams: seq<Upstream>, default: string, perCN: map<string, string>)

  const EMPTY_CONFIG := Config([], "", map[])

  /** An address as net.ParseIP yields it; IPv4 exactly when To4() is not nil. */
  datatype Address = IPv4(bits: nat) | IPv6(bits: nat)

  datatype URL = URL(scheme: string, hostname: string, port: string)

  /** Library calls and host state the configuration code consults. */
  datatype Host = Host(
    parseURL: string -> Option<URL>,
    parseIP: string -> Option<Address>,
    ifaceExists: string -> bool)

  datatype ConfigError =
    | EmptyID | BadID | DuplicateID | SocksWithIface | BadSocksURL | NegativeTimeout
    | BadIface | BadGateway | TimeoutOnIface | TableOutOfBand | TableUsed
    | UnknownDefault | UnknownTarget | NoFreeTable | BadAssignCall

  // ----- syntax -----

  predicate IsAlnum(c: char) {
    'A' <= c <= 'Z' || 'a' <= c <= 'z' || '0' <= c <= '9'
  }

  predicate NameOk(s: string) {
    && 1 <= |s| <= MAX_NAME_LEN
    && forall i :: 0 <= i < |s| ==> IsAlnum(s[i]) || s[i] in "._@-"
  }

  predicate IfaceOk(s: string) {
    && 1 <= |s| <= MAX_IFACE_LEN
    && IsAlnum(s[0])
    && forall i :: 1 <= i < |s| ==> IsAlnum(s[i]) || s[i] in "._:-"
  }

  predicate SocksURLOk(host: Host, raw: string) {
    var parsed := host.parseURL(raw);
    && parsed.Some?
    && parsed.value.scheme == "socks5"
    && parsed.value.hostname != "" && parsed.value.port != ""
    && forall i :: 0 <= i < |raw| ==> raw[i] as int <= 127
  }

  // ----- what a valid configuration is -----

  predicate InBand(table: int) {
    TABLE_BASE <= table < TABLE_BASE + MAX_UPSTREAMS
  }

  /** The checks on one entry that do not depend on its neighbours or its table. */
  predicate EntryOk(host: Host, u: Upstream) {
    && NameOk(u.id)
    && if u.IsSOCKS() then
         && u.iface == "" && u.gateway == ""
         && SocksURLOk(host, u.socks)
         && u.dialTimeout >= 0 && u.handshakeTimeout >= 0
       else
         && IfaceOk(u.iface)
         && (u.gateway != "" ==> host.parseIP(u.gateway).Some?)
         && u.dialTimeout == 0 && u.handshakeTimeout == 0
  }

  predicate Defined(c: Config, id: string) {
    exists i :: 0 <= i < |c.upstreams| && c.upstreams[i].id == id
  }

  ghost predicate DistinctIDs(ups: seq<Upstream>) {
    forall i, j :: 0 <= i < j < |ups| ==> ups[i].id != ups[j].id
  }

  ghost predicate DistinctTables(ups: seq<Upstream>) {
    forall i, j :: 0 <= i < j < |ups| ==> ups[i].table != ups[j].table
  }

  ghost predicate Valid(host: Host, c: Config) {
    && (forall i :: 0 <= i < |c.upstreams| ==> EntryOk(host, c.upstreams[i]) && InBand(c.upstreams[i].table))
    && DistinctIDs(c.upstreams)
    && DistinctTables(c.upstreams)
    && (c.default != "" ==> Defined(c, c.default))
    && (forall cn :: cn in c.perCN ==> Defined(c, c.perCN[cn]))
  }

  /** What entry n is refused for, given the entries before it; the checks in the order the code makes them. */
  function EntryError(host: Host, ups: seq<Upstream>, n: nat): Option<ConfigError>
    requires n < |ups|
  {
    var u := ups[n];
    if u.id == "" then Some(EmptyID)
    else if !NameOk(u.id) then Some(BadID)
    else if exists j :: 0 <= j < n && ups[j].id == u.id then Some(DuplicateID)
    else if u.IsSOCKS() && (u.iface != "" || u.gateway != "") then Some(SocksWithIface)
    else if u.IsSOCKS() && !SocksURLOk(host, u.socks) then Some(BadSocksURL)
    else if u.IsSOCKS() && (u.dialTimeout < 0 || u.handshakeTimeout < 0) then Some(NegativeTimeout)
    else if !u.IsSOCKS() && !IfaceOk(u.iface) then Some(BadIface)
    else if !u.IsSOCKS() && u.gateway != "" && host.parseIP(u.gateway).None? then Some(BadGateway)
    else if !u.IsSOCKS() && (u.dialTimeout != 0 || u.handshakeTimeout != 0) then Some(TimeoutOnIface)
    else if !InBand(u.table) then Some(TableOutOfBand)
    else if exists j :: 0 <= j < n && ups[j].table == u.table then Some(TableUsed)
    else None
  }

  function EntriesError(host: Host, ups: seq<Upstream>, n: nat): (e: Option<ConfigError>)
    requires n <= |ups|
    ensures e.None? <==> forall i :: n <= i < |ups| ==> EntryError(host, ups, i).None?
    decreases |ups| - n
  {
    if n == |ups| then None
    else if EntryError(host, ups, n).Some? then EntryError(host, ups, n)
    else EntriesError(host, ups, n + 1)
  }

  function FirstError(host: Host, c: Config): Option<ConfigError> {
    if EntriesError(host, c.upstreams, 0).Some? then EntriesError(host, c.upstreams, 0)
    else if c.default != "" && !Defined(c, c.default) then Some(UnknownDefault)
    else if exists cn :: cn in c.perCN && !Defined(c, c.perCN[cn]) then Some(UnknownTarget)
    else None
  }

  /** Checking entry by entry against what was seen so far decides the pairwise conditions of Valid. */
  lemma NoErrorIffValid(host: Host, c: Config)
    ensures FirstError(host, c).None? <==> Valid(host, c)
  {
    var ups := c.upstreams;
    if EntriesError(host, ups, 0).None? {
      forall i, j | 0 <= i < j < |ups| ensures ups[i].id != ups[j].id && ups[i].table != ups[j].table {
        assert EntryError(host, ups, j).None?;
      }
      forall i | 0 <= i < |ups| ensures EntryOk(host, ups[i]) && InBand(ups[i].table) {
        assert EntryError(host, ups, i).None?;
      }
    }
  }

  /** What each check refuses in entry n. */
  predicate Faulty(host: Host, ups: seq<Upstream>, n: nat, e: ConfigError)
    requires n < |ups|
  {
    var u := ups[n];
    match e
    case EmptyID => u.id == ""
    case BadID => u.id != "" && !NameOk(u.id)
    case DuplicateID => exists j :: 0 <= j < n && ups[j].id == u.id
    case SocksWithIface => u.IsSOCKS() && (u.iface != "" || u.gateway != "")
    case BadSocksURL => u.IsSOCKS() && !SocksURLOk(host, u.socks)
    case NegativeTimeout => u.IsSOCKS() && (u.dialTimeout < 0 || u.handshakeTimeout < 0)
    case BadIface => !u.IsSOCKS() && !IfaceOk(u.iface)
    case BadGateway => !u.IsSOCKS() && u.gateway != "" && host.parseIP(u.gateway).None?
    case TimeoutOnIface => !u.IsSOCKS() && (u.dialTimeout != 0 || u.handshakeTimeout != 0)
    case TableOutOfBand => !InBand(u.table)
    case TableUsed => exists j :: 0 <= j < n && ups[j].table == u.table
    case _ => false
  }

  /** The order of the checks on one entry. */
  function Turn(e: ConfigError): nat {
    match e
    case EmptyID => 0
    case BadID => 1
    case DuplicateID => 2
    case SocksWithIface => 3
    case BadSocksURL => 4
    case NegativeTimeout => 5
    case BadIface => 6
    case BadGateway => 7
    case TimeoutOnIface => 8
    case TableOutOfBand => 9
    case TableUsed => 10
    case _ => 11
  }

  /** e is the first check that entry n fails, and no entry before it fails any. */
  ghost predicate FirstFault(host: Host, ups: seq<Upstream>, n: nat, e: ConfigError) {
    && n < |ups| && Faulty(host, ups, n, e)
    && (forall f :: Turn(f) < Turn(e) ==> !Faulty(host, ups, n, f))
    && NoFaults(host, ups, n)
  }

  /** The first n entries pass every check. */
  ghost predicate NoFaults(host: Host, ups: seq<Upstream>, n: nat) {
    n <= |ups| && forall m: nat, f :: m < n ==> !Faulty(host, ups, m, f)
  }

  ghost predicate IsFirstFault(host: Host, ups: seq<Upstream>, e: ConfigError) {
    exists n: nat :: FirstFault(host, ups, n, e)
  }

  lemma EntryErrorIsFault(host: Host, ups: seq<Upstream>, n: nat)
    requires n < |ups|
    ensures match EntryError(host, ups, n)
            case Some(e) => Faulty(host, ups, n, e) && forall f :: Turn(f) < Turn(e) ==> !Faulty(host, ups, n, f)
            case None => forall f :: !Faulty(host, ups, n, f)
  {
  }

  lemma {:induction false} EntriesErrorIsFirst(host: Host, ups: seq<Upstream>, n: nat)
    requires NoFaults(host, ups, n)
    ensures var e := EntriesError(host, ups, n);
      if e.Some? then IsFirstFault(host, ups, e.value) else NoFaults(host, ups, |ups|)
    decreases |ups| - n
  {
    if n < |ups| {
      EntryErrorIsFault(host, ups, n);
      var e := EntryError(host, ups, n);
      if e.Some? {
        assert FirstFault(host, ups, n, e.value);
      } else {
        EntriesErrorIsFirst(host, ups, n + 1);
      }
    }
  }

  /** The error that is reported: that of the first entry that fails a check, for the first check it fails; with
      all entries in order, that of the default, and then of an override. */
  lemma FirstErrorExact(host: Host, c: Config)
    ensures match FirstError(host, c)
            case Some(UnknownDefault) =>
              NoFaults(host, c.upstreams, |c.upstreams|) && c.default != "" && !Defined(c, c.default)
            case Some(UnknownTarget) =>
              NoFaults(host, c.upstreams, |c.upstreams|) && (c.default != "" ==> Defined(c, c.default))
              && exists cn :: cn in c.perCN && !Defined(c, c.perCN[cn])
            case Some(e) => IsFirstFault(host, c.upstreams, e)
            case None => Valid(host, c)
  {
    EntriesErrorIsFirst(host, c.upstreams, 0);
    NoErrorIffValid(host, c);
  }

  method Validate(host: Host, c: Config) returns (err: Option<ConfigError>)
    ensures err == FirstError(host, c)
  {
    var ups := c.upstreams;
    var seen: set<string>, tables: set<int> := {}, {};
    for n := 0 to |ups|
      invariant seen == set i | 0 <= i < n :: ups[i].id
      invariant tables == set i | 0 <= i < n :: ups[i].table
      invariant EntriesError(host, ups, 0) == EntriesError(host, ups, n)
    {
      var u := ups[n];
      if u.id == "" {
        return Some(EmptyID);
      }
      if !NameOk(u.id) {
        return Some(BadID);
      }
      if u.id in seen {
        return Some(DuplicateID);
      }
      seen := seen + {u.id};
      if u.IsSOCKS() {
        if u.iface != "" || u.gateway != "" {
          return Some(SocksWithIface);
        }
        if !SocksURLOk(host, u.socks) {
          return Some(BadSocksURL);
        }
        if u.dialTimeout < 0 || u.handshakeTimeout < 0 {
          return Some(NegativeTimeout);
        }
      } else {
        if !IfaceOk(u.iface) {
          return Some(BadIface);
        }
        if u.gateway != "" && host.parseIP(u.gateway).None? {
          return Some(BadGateway);
        }
        if u.dialTimeout != 0 || u.handshakeTimeout != 0 {
          return Some(TimeoutOnIface);
        }
      }
      if !InBand(u.table) {
        return Some(TableOutOfBand);
      }
      if u.table in tables {
        return Some(TableUsed);
      }
      tables := tables + {u.table};
    }
    if c.default != "" && c.default !in seen {
      return Some(UnknownDefault);
    }
    var todo := c.perCN.Keys;
    while todo != {}
      invariant todo <= c.perCN.Keys
      invariant forall cn :: cn in c.perCN && cn !in todo ==> Defined(c, c.perCN[cn])
    {
      var cn :| cn in todo;
      if c.perCN[cn] !in seen {
        return Some(UnknownTarget);
      }
      todo := todo - {cn};
    }
    return None;
  }

  // ----- lookups -----

  function Resolve(c: Config, cn: string): string {
    if cn in c.perCN then c.perCN[cn] else c.default
  }

  function FindIn(ups: seq<Upstream>, id: string): (r: Option<Upstream>)
    ensures r.Some? ==> r.value in ups && r.value.id == id
    ensures r.None? <==> forall i :: 0 <= i < |ups| ==> ups[i].id != id
  {
    if ups == [] then None
    else if ups[0].id == id then Some(ups[0])
    else FindIn(ups[1..], id)
  }

  function Find(c: Config, id: string): Option<Upstream> { FindIn(c.upstreams, id) }

  method FindLoop(c: Config, id: string) returns (r: Option<Upstream>)
    ensures r == Find(c, id)
  {
    for n := 0 to |c.upstreams|
      invariant Find(c, id) == FindIn(c.upstreams[n..], id)
    {
      if c.upstreams[n].id == id {
        return Some(c.upstreams[n]);
      }
      assert c.upstreams[n..][1..] == c.upstreams[n + 1..];
    }
    return None;
  }

  /** The search stops at the first entry with the id. */
  lemma {:induction false} FindsFirst(ups: seq<Upstream>, id: string, i: nat)
    requires i < |ups| && ups[i].id == id && forall j :: 0 <= j < i ==> ups[j].id != id
    ensures FindIn(ups, id) == Some(ups[i])
  {
    if i > 0 {
      assert ups[0].id != id;
      FindsFirst(ups[1..], id, i - 1);
    }
  }

  /** With distinct ids, every entry is the one that its id finds. */
  lemma {:induction false} FindEntry(ups: seq<Upstream>, i: nat)
    requires i < |ups| && DistinctIDs(ups)
    ensures FindIn(ups, ups[i].id) == Some(ups[i])
  {
    if i > 0 {
      assert ups[0].id != ups[i].id;
      FindEntry(ups[1..], i - 1);
    }
  }

  // ----- NextTable -----

  function TablesOf(ups: seq<Upstream>): set<int> {
    set i | 0 <= i < |ups| :: ups[i].table
  }

  /** The lowest table of the band, from t on, outside used. */
  function LowestFree(used: set<int>, t: int): (r: Option<int>)
    requires TABLE_BASE <= t <= TABLE_BASE + MAX_UPSTREAMS
    ensures r.Some? ==> InBand(r.value) && t <= r.value && r.value !in used
    ensures r.Some? ==> forall x :: t <= x < r.value ==> x in used
    ensures r.None? <==> forall x :: t <= x < TABLE_BASE + MAX_UPSTREAMS ==> x in used
    decreases TABLE_BASE + MAX_UPSTREAMS - t
  {
    if t == TABLE_BASE + MAX_UPSTREAMS then None
    else if t !in used then Some(t)
    else LowestFree(used, t + 1)
  }

  method NextTable(existing: seq<Upstream>) returns (r: Option<int>)
    ensures r == LowestFree(TablesOf(existing), TABLE_BASE)
  {
    var used: set<int> := {};
    for n := 0 to |existing|
      invariant used == set i | 0 <= i < n :: existing[i].table
    {
      used := used + {existing[n].table};
    }
    for i := 0 to MAX_UPSTREAMS
      invariant LowestFree(used, TABLE_BASE) == LowestFree(used, TABLE_BASE + i)
    {
      if TABLE_BASE + i !in used {
        return Some(TABLE_BASE + i);
      }
    }
    return None;
  }

  function Band(lo: int, hi: int): (s: set<int>)
    requires lo <= hi
    ensures |s| == hi - lo
    ensures forall x :: x in s <==> lo <= x < hi
    decreases hi - lo
  {
    if lo == hi then {} else Band(lo, hi - 1) + {hi - 1}
  }

  lemma {:induction false} DistinctTablesCount(ups: seq<Upstream>)
    requires DistinctTables(ups)
    ensures |TablesOf(ups)| == |ups|
  {
    if ups != [] {
      var init := ups[..|ups| - 1];
      assert forall i :: 0 <= i < |init| ==> init[i] == ups[i];
      DistinctTablesCount(init);
      LastTable(ups);
      assert ups[|ups| - 1].table !in TablesOf(init);
    }
  }

  lemma LastTable(ups: seq<Upstream>)
    requires ups != []
    ensures TablesOf(ups) == TablesOf(ups[..|ups| - 1]) + {ups[|ups| - 1].table}
  {
    var init := ups[..|ups| - 1];
    assert forall i :: 0 <= i < |init| ==> init[i] == ups[i];
    forall t | t in TablesOf(ups) ensures t in TablesOf(init) + {ups[|ups| - 1].table} {
      var i :| 0 <= i < |ups| && ups[i].table == t;
      assert i < |init| ==> init[i].table == t;
    }
  }

  lemma SubsetOfEqualSize(a: set<int>, b: set<int>)
    requires a <= b && |a| == |b|
    ensures a == b
  {
    assert b == (b - a) + a;
    assert |b| == |b - a| + |a|;
  }

  /** Pigeonhole: a valid configuration has no free table exactly when it holds 64 upstreams. */
  lemma NoFreeTableIffFull(host: Host, c: Config)
    requires Valid(host, c)
    ensures LowestFree(TablesOf(c.upstreams), TABLE_BASE).None? <==> |c.upstreams| == MAX_UPSTREAMS
    ensures |c.upstreams| <= MAX_UPSTREAMS
  {
    var used, band := TablesOf(c.upstreams), Band(TABLE_BASE, TABLE_BASE + MAX_UPSTREAMS);
    DistinctTablesCount(c.upstreams);
    assert used <= band;
    assert |band| == |band - used| + |used|;
    if LowestFree(used, TABLE_BASE).None? {
      assert band <= used;
    } else if |c.upstreams| == MAX_UPSTREAMS {
      SubsetOfEqualSize(used, band);
    }
  }

  /** Relay ports and rule priorities name their upstream: distinct in a valid configuration, and in band. */
  lemma PortsAndPrioritiesInjective(host: Host, c: Config, i: nat, j: nat)
    requires Valid(host, c) && i < |c.upstreams| && j < |c.upstreams|
    ensures 20000 <= c.upstreams[i].SocksPort() < 20064 && 20000 <= RulePrio(c.upstreams[i].table) < 20064
    ensures c.upstreams[i].SocksPort() - 20000 == RulePrio(c.upstreams[i].table) - 20000 == c.upstreams[i].table - 100
    ensures c.upstreams[i].SocksPort() == c.upstreams[j].SocksPort() <==> i == j
    ensures RulePrio(c.upstreams[i].table) == RulePrio(c.upstreams[j].table) <==> i == j
  {
    if i != j {
      assert c.upstreams[i].table != c.upstreams[j].table;
    }
  }

  function RulePrio(table: int): int { RULE_PRIO_BASE + (table - TABLE_BASE) }

  // ----- the four edits -----

  function WithAdded(host: Host, c: Config, u: Upstream): Result<(Config, Upstream), ConfigError> {
    var t := LowestFree(TablesOf(c.upstreams), TABLE_BASE);
    if t.None? then Err(NoFreeTable)
    else
      var added := u.(table := t.value);
      var cfg := c.(upstreams := c.upstreams + [added]);
      var e := FirstError(host, cfg);
      if e.Some? then Err(e.value) else Ok((cfg, added))
  }

  function Keep(ups: seq<Upstream>, id: string): seq<Upstream> {
    if ups == [] then []
    else if ups[0].id == id then Keep(ups[1..], id)
    else [ups[0]] + Keep(ups[1..], id)
  }

  lemma {:induction false} KeepMembers(ups: seq<Upstream>, id: string)
    ensures forall u :: u in Keep(ups, id) <==> u in ups && u.id != id
  {
    if ups != [] {
      KeepMembers(ups[1..], id);
      assert ups == [ups[0]] + ups[1..];
    }
  }

  lemma {:induction false} KeepDistinct(ups: seq<Upstream>, id: string)
    requires DistinctIDs(ups) && DistinctTables(ups)
    ensures DistinctIDs(Keep(ups, id)) && DistinctTables(Keep(ups, id))
  {
    if ups != [] {
      KeepDistinct(ups[1..], id);
      KeepMembers(ups[1..], id);
      var rest := Keep(ups[1..], id);
      forall k | 0 <= k < |rest| ensures rest[k].id != ups[0].id && rest[k].table != ups[0].table {
        assert rest[k] in ups[1..];
      }
    }
  }

  function Without(c: Config, id: string): (Config, bool) {
    (Config(
       Keep(c.upstreams, id),
       if c.default == id then "" else c.default,
       map cn | cn in c.perCN && c.perCN[cn] != id :: c.perCN[cn]),
     Find(c, id).Some?)
  }

  method KeepOthers(ups: seq<Upstream>, id: string) returns (kept: seq<Upstream>, found: bool)
    ensures kept == Keep(ups, id)
    ensures found <==> FindIn(ups, id).Some?
  {
    kept, found := [], false;
    for n := 0 to |ups|
      invariant Keep(ups, id) == kept + Keep(ups[n..], id)
      invariant FindIn(ups, id).Some? <==> found || FindIn(ups[n..], id).Some?
    {
      assert ups[n..][0] == ups[n] && ups[n..][1..] == ups[n + 1..];
      if ups[n].id == id {
        found := true;
      } else {
        kept := kept + [ups[n]];
      }
    }
  }

  method ClearOverridesTo(perCN: map<string, string>, id: string) returns (rest: map<string, string>)
    ensures rest == map cn | cn in perCN && perCN[cn] != id :: perCN[cn]
  {
    rest := map[];
    var todo := perCN.Keys;
    while todo != {}
      invariant todo <= perCN.Keys
      invariant rest == map cn | cn in perCN && cn !in todo && perCN[cn] != id :: perCN[cn]
    {
      var cn :| cn in todo;
      if perCN[cn] != id {
        rest := rest[cn := perCN[cn]];
      }
      todo := todo - {cn};
    }
  }

  method RemoveUpstream(c: Config, id: string) returns (r: (Config, bool))
    ensures r == Without(c, id)
  {
    var kept, found := KeepOthers(c.upstreams, id);
    var perCN := ClearOverridesTo(c.perCN, id);
    r := (Config(kept, if c.default == id then "" else c.default, perCN), found);
  }

  method AddUpstream(host: Host, c: Config, u: Upstream) returns (r: Result<(Config, Upstream), ConfigError>)
    ensures r == WithAdded(host, c, u)
  {
    var t := NextTable(c.upstreams);
    if t.None? {
      return Err(NoFreeTable);
    }
    var added := u.(table := t.value);
    var cfg := c.(upstreams := c.upstreams + [added]);
    var err := Validate(host, cfg);
    if err.Some? {
      return Err(err.value);
    }
    return Ok((cfg, added));
  }

  function Validated(host: Host, c: Config): Result<Config, ConfigError> {
    var e := FirstError(host, c);
    if e.Some? then Err(e.value) else Ok(c)
  }

  function Assign(host: Host, c: Config, cn: string, id: string, clear: bool): Result<Config, ConfigError> {
    if cn == "" || clear == (id != "") then Err(BadAssignCall)
    else Validated(host, c.(perCN := if clear then c.perCN - {cn} else c.perCN[cn := id]))
  }

  function SetDefault(host: Host, c: Config, id: string): Result<Config, ConfigError> {
    Validated(host, c.(default := id))
  }

  /** An upstream can be added exactly when there is room, its own fields are right and its id is new;
      it takes the lowest free table and nothing else moves. */
  lemma WithAddedExact(host: Host, c: Config, u: Upstream)
    requires Valid(host, c)
    ensures var r := WithAdded(host, c, u);
      && (r.Ok? <==> |c.upstreams| < MAX_UPSTREAMS && EntryOk(host, u) && !Defined(c, u.id))
      && (r.Err? && |c.upstreams| == MAX_UPSTREAMS ==> r.error == NoFreeTable)
      && (r.Err? && |c.upstreams| < MAX_UPSTREAMS ==>
            exists t: int :: FirstFault(host, c.upstreams + [u.(table := t)], |c.upstreams|, r.error))
      && (r.Ok? ==>
            var (cfg, added) := r.value;
            && Valid(host, cfg)
            && cfg.upstreams == c.upstreams + [added] && cfg.default == c.default && cfg.perCN == c.perCN
            && added == u.(table := added.table)
            && InBand(added.table) && added.table !in TablesOf(c.upstreams)
            && forall x :: TABLE_BASE <= x < added.table ==> x in TablesOf(c.upstreams))
  {
    NoFreeTableIffFull(host, c);
    var t := LowestFree(TablesOf(c.upstreams), TABLE_BASE);
    if t.Some? {
      var cfg := c.(upstreams := c.upstreams + [u.(table := t.value)]);
      NoErrorIffValid(host, cfg);
      AppendedValid(host, c, u.(table := t.value));
      AppendedFault(host, c, u.(table := t.value));
    }
  }

  /** If the entry cannot follow, the fault is its own. */
  lemma AppendedFault(host: Host, c: Config, added: Upstream)
    requires Valid(host, c)
    ensures var cfg := c.(upstreams := c.upstreams + [added]); var e := FirstError(host, cfg);
      e.Some? ==> FirstFault(host, cfg.upstreams, |c.upstreams|, e.value)
  {
    var cfg := c.(upstreams := c.upstreams + [added]);
    var e := FirstError(host, cfg);
    PrefixFaultless(host, c, added);
    NamesStayDefined(host, c, added);
    FirstErrorExact(host, cfg);
    if e.Some? {
      var n: nat :| FirstFault(host, cfg.upstreams, n, e.value);
      assert n == |c.upstreams|;
    }
  }

  lemma NamesStayDefined(host: Host, c: Config, added: Upstream)
    requires Valid(host, c)
    ensures var e := FirstError(host, c.(upstreams := c.upstreams + [added]));
      e != Some(UnknownDefault) && e != Some(UnknownTarget)
  {
    var cfg := c.(upstreams := c.upstreams + [added]);
    AppendedDefines(c, added);
    FirstErrorExact(host, cfg);
  }

  lemma PrefixFaultless(host: Host, c: Config, added: Upstream)
    requires Valid(host, c)
    ensures NoFaults(host, c.upstreams + [added], |c.upstreams|)
  {
    var ups := c.upstreams + [added];
    forall m: nat, f | m < |c.upstreams| ensures !Faulty(host, ups, m, f) {
      assert forall j :: 0 <= j <= m ==> ups[j] == c.upstreams[j];
    }
  }

  lemma AppendedDefines(c: Config, added: Upstream)
    ensures forall id :: Defined(c.(upstreams := c.upstreams + [added]), id) <==> Defined(c, id) || id == added.id
  {
    var ups := c.upstreams + [added];
    forall id ensures Defined(c.(upstreams := ups), id) <==> Defined(c, id) || id == added.id {
      if Defined(c, id) {
        var i :| 0 <= i < |c.upstreams| && c.upstreams[i].id == id;
        assert ups[i].id == id;
      }
      assert ups[|c.upstreams|].id == added.id;
    }
  }

  /** An entry with a free table in the band can follow a valid list exactly if it is well formed and its id is new. */
  lemma AppendedValid(host: Host, c: Config, added: Upstream)
    requires Valid(host, c) && InBand(added.table) && added.table !in TablesOf(c.upstreams)
    ensures Valid(host, c.(upstreams := c.upstreams + [added])) <==> EntryOk(host, added) && !Defined(c, added.id)
  {
    var cfg, n := c.(upstreams := c.upstreams + [added]), |c.upstreams|;
    AppendedDefines(c, added);
    assert forall i :: 0 <= i < n ==> cfg.upstreams[i] == c.upstreams[i];
    assert cfg.upstreams[n] == added;
    forall i | 0 <= i < n ensures c.upstreams[i].table != added.table {
      assert c.upstreams[i].table in TablesOf(c.upstreams);
    }
    if Valid(host, cfg) {
      assert EntryOk(host, cfg.upstreams[n]);
    }
  }

  /** u stands before v. */
  predicate Before(ups: seq<Upstream>, u: Upstream, v: Upstream) {
    exists p, q :: 0 <= p < q < |ups| && ups[p] == u && ups[q] == v
  }

  /** What is kept is kept in order. */
  predicate InOrder(ups: seq<Upstream>, kept: seq<Upstream>) {
    forall i, j :: 0 <= i < j < |kept| ==> Before(ups, kept[i], kept[j])
  }

  lemma {:induction false} KeepOrder(ups: seq<Upstream>, id: string)
    ensures InOrder(ups, Keep(ups, id))
  {
    if ups != [] {
      var rest := Keep(ups[1..], id);
      KeepOrder(ups[1..], id);
      KeepMembers(ups[1..], id);
      InOrderTail(ups, rest);
      if ups[0].id != id {
        InOrderCons(ups, rest);
      }
    }
  }

  lemma InOrderTail(ups: seq<Upstream>, kept: seq<Upstream>)
    requires ups != [] && InOrder(ups[1..], kept)
    ensures InOrder(ups, kept)
  {
    forall i, j | 0 <= i < j < |kept| ensures Before(ups, kept[i], kept[j]) {
      BeforeInTail(ups, kept[i], kept[j]);
    }
  }

  lemma InOrderCons(ups: seq<Upstream>, rest: seq<Upstream>)
    requires ups != [] && InOrder(ups, rest) && forall u :: u in rest ==> u in ups[1..]
    ensures InOrder(ups, [ups[0]] + rest)
  {
    var kept := [ups[0]] + rest;
    forall i, j | 0 <= i < j < |kept| ensures Before(ups, kept[i], kept[j]) {
      assert kept[j] == rest[j - 1];
      if i == 0 {
        assert rest[j - 1] in rest;
        var q :| 0 <= q < |ups[1..]| && ups[1..][q] == rest[j - 1];
        assert ups[q + 1] == kept[j];
      } else {
        assert kept[i] == rest[i - 1];
        assert Before(ups, rest[i - 1], rest[j - 1]);
      }
    }
  }

  lemma BeforeInTail(ups: seq<Upstream>, u: Upstream, v: Upstream)
    requires ups != [] && Before(ups[1..], u, v)
    ensures Before(ups, u, v)
  {
    var p, q :| 0 <= p < q < |ups[1..]| && ups[1..][p] == u && ups[1..][q] == v;
    assert ups[p + 1] == u && ups[q + 1] == v;
  }

  /** Removing an upstream keeps the configuration valid without re-checking it. A default that named it is
      cleared and overrides to it are dropped, so its clients fall back to the default that is left; all other
      clients keep their upstream, and the others' order stays. */
  lemma WithoutExact(host: Host, c: Config, id: string)
    requires Valid(host, c)
    ensures var cfg := Without(c, id).0;
      && Valid(host, cfg)
      && (Without(c, id).1 <==> Defined(c, id))
      && !Defined(cfg, id)
      && (id != "" ==> forall cn :: Resolve(cfg, cn) != id)
      && cfg.default == (if c.default == id then "" else c.default)
      && (forall cn :: cn in cfg.perCN <==> cn in c.perCN && c.perCN[cn] != id)
      && (forall cn :: cn in cfg.perCN ==> cfg.perCN[cn] == c.perCN[cn])
      && (forall cn :: Resolve(cfg, cn) == if Resolve(c, cn) == id then cfg.default else Resolve(c, cn))
      && (forall u :: u in cfg.upstreams <==> u in c.upstreams && u.id != id)
      && InOrder(c.upstreams, cfg.upstreams)
  {
    KeepMembers(c.upstreams, id);
    KeepOrder(c.upstreams, id);
    KeepDefined(c, id);
    KeepValid(host, c, id);
    WithoutNames(c, id);
  }

  lemma WithoutNames(c: Config, id: string)
    ensures var cfg := Without(c, id).0;
      && cfg.default == (if c.default == id then "" else c.default)
      && (forall cn :: cn in cfg.perCN <==> cn in c.perCN && c.perCN[cn] != id)
      && (forall cn :: cn in cfg.perCN ==> cfg.perCN[cn] == c.perCN[cn])
      && (id != "" ==> forall cn :: Resolve(cfg, cn) != id)
      && (forall cn :: Resolve(cfg, cn) == if Resolve(c, cn) == id then cfg.default else Resolve(c, cn))
  {
  }

  lemma KeepValid(host: Host, c: Config, id: string)
    requires Valid(host, c)
    ensures Valid(host, Without(c, id).0)
  {
    var cfg := Without(c, id).0;
    KeepMembers(c.upstreams, id);
    KeepDistinct(c.upstreams, id);
    KeepDefined(c, id);
    assert forall k :: 0 <= k < |cfg.upstreams| ==> cfg.upstreams[k] in cfg.upstreams;
  }

  lemma KeepDefined(c: Config, id: string)
    ensures forall target :: Defined(Without(c, id).0, target) <==> Defined(c, target) && target != id
  {
    var cfg := Without(c, id).0;
    KeepMembers(c.upstreams, id);
    forall target | Defined(cfg, target) ensures Defined(c, target) && target != id {
      var i :| 0 <= i < |cfg.upstreams| && cfg.upstreams[i].id == target;
      assert cfg.upstreams[i] in c.upstreams;
    }
    forall target | Defined(c, target) && target != id ensures Defined(cfg, target) {
      var i :| 0 <= i < |c.upstreams| && c.upstreams[i].id == target;
      assert c.upstreams[i] in cfg.upstreams;
    }
  }

  /** Assign succeeds exactly for a named client and one of the two forms, and changes that client alone. */
  lemma AssignExact(host: Host, c: Config, cn: string, id: string, clear: bool)
    requires Valid(host, c)
    ensures var r := Assign(host, c, cn, id, clear);
      && (r.Ok? <==> cn != "" && (if clear then id == "" else id != "" && Defined(c, id)))
      && (r.Ok? ==>
            && Valid(host, r.value)
            && r.value.upstreams == c.upstreams && r.value.default == c.default
            && (cn in r.value.perCN <==> !clear)
            && Resolve(r.value, cn) == (if clear then c.default else id)
            && (forall x :: x != cn ==> (x in r.value.perCN <==> x in c.perCN))
            && forall x :: x != cn ==> Resolve(r.value, x) == Resolve(c, x))
      && (r.Err? ==> r.error == if cn == "" || clear == (id != "") then BadAssignCall else UnknownTarget)
  {
    if !clear {
      NoErrorIffValid(host, c.(perCN := c.perCN[cn := id]));
      OnlyNamesFail(host, c, c.(perCN := c.perCN[cn := id]));
    } else {
      NoErrorIffValid(host, c.(perCN := c.perCN - {cn}));
    }
    OverrideValid(host, c, cn, id);
  }

  /** The entries of a valid configuration stay in order whatever its default and overrides become. */
  lemma OnlyNamesFail(host: Host, c: Config, cfg: Config)
    requires Valid(host, c) && cfg.upstreams == c.upstreams
    ensures FirstError(host, cfg) ==
      if cfg.default != "" && !Defined(cfg, cfg.default) then Some(UnknownDefault)
      else if exists cn :: cn in cfg.perCN && !Defined(cfg, cfg.perCN[cn]) then Some(UnknownTarget)
      else None
  {
    NoErrorIffValid(host, c);
  }

  /** An override keeps a configuration valid exactly if its target is defined; dropping one always does. */
  lemma OverrideValid(host: Host, c: Config, cn: string, id: string)
    requires Valid(host, c)
    ensures Valid(host, c.(perCN := c.perCN - {cn}))
    ensures Valid(host, c.(perCN := c.perCN[cn := id])) <==> Defined(c, id)
  {
    assert forall x :: Defined(c.(perCN := c.perCN - {cn}), x) <==> Defined(c, x);
    assert forall x :: Defined(c.(perCN := c.perCN[cn := id]), x) <==> Defined(c, x);
    assert c.perCN[cn := id][cn] == id;
  }

  lemma SetDefaultExact(host: Host, c: Config, id: string)
    requires Valid(host, c)
    ensures var r := SetDefault(host, c, id);
      && (r.Ok? <==> id == "" || Defined(c, id))
      && (r.Ok? ==> Valid(host, r.value) && r.value == c.(default := id))
      && (r.Err? ==> r.error == UnknownDefault)
  {
    NoErrorIffValid(host, c.(default := id));
    OnlyNamesFail(host, c, c.(default := id));
    assert forall x :: Defined(c.(default := id), x) <==> Defined(c, x);
  }

  // ----- every configuration an admin can reach -----

  datatype Edit =
    | Add(u: Upstream)
    | Delete(id: string)
    | AssignTo(cn: string, target: string, clear: bool)
    | Default(to: string)

  /** One admin action as internal/api runs it: a refused edit leaves the configuration alone. */
  function Edited(host: Host, c: Config, e: Edit): Config {
    match e
    case Add(u) => (var r := WithAdded(host, c, u); if r.Ok? then r.value.0 else c)
    case Delete(id) => (var r := Without(c, id); if r.1 then r.0 else c)
    case AssignTo(cn, target, clear) => (var r := Assign(host, c, cn, target, clear); if r.Ok? then r.value else c)
    case Default(to) => (var r := SetDefault(host, c, to); if r.Ok? then r.value else c)
  }

  /** An edit that can be made is made, and any other leaves the configuration alone. */
  lemma EditTakesEffect(host: Host, c: Config, e: Edit)
    requires Valid(host, c)
    ensures var c' := Edited(host, c, e);
      match e
      case Add(u) =>
        if |c.upstreams| < MAX_UPSTREAMS && EntryOk(host, u) && !Defined(c, u.id) then
          exists t :: c' == c.(upstreams := c.upstreams + [u.(table := t)]) && LowestUnused(c, t)
        else c' == c
      case Delete(id) => if Defined(c, id) then c' == Without(c, id).0 else c' == c
      case AssignTo(cn, target, clear) =>
        if cn != "" && clear && target == "" then c' == c.(perCN := c.perCN - {cn})
        else if cn != "" && !clear && target != "" && Defined(c, target) then
          c' == c.(perCN := c.perCN[cn := target])
        else c' == c
      case Default(to) => if to == "" || Defined(c, to) then c' == c.(default := to) else c' == c
  {
    match e
    case Add(u) => AddTakesEffect(host, c, u);
    case Delete(id) => WithoutExact(host, c, id);
    case AssignTo(cn, target, clear) => AssignExact(host, c, cn, target, clear);
    case Default(to) => SetDefaultExact(host, c, to);
  }

  lemma AddTakesEffect(host: Host, c: Config, u: Upstream)
    requires Valid(host, c)
    ensures var c' := Edited(host, c, Add(u));
      if |c.upstreams| < MAX_UPSTREAMS && EntryOk(host, u) && !Defined(c, u.id) then
        exists t :: c' == c.(upstreams := c.upstreams + [u.(table := t)]) && LowestUnused(c, t)
      else c' == c
  {
    WithAddedExact(host, c, u);
    var r := WithAdded(host, c, u);
    if r.Ok? {
      var t := r.value.1.table;
      assert r.value.0 == c.(upstreams := c.upstreams + [u.(table := t)]);
      LowestIsUnused(c, t);
    }
  }

  lemma LowestIsUnused(c: Config, t: int)
    requires InBand(t) && t !in TablesOf(c.upstreams) && forall x :: TABLE_BASE <= x < t ==> x in TablesOf(c.upstreams)
    ensures LowestUnused(c, t)
  {
    forall u | u in c.upstreams ensures u.table in TablesOf(c.upstreams) {
      var i :| 0 <= i < |c.upstreams| && c.upstreams[i] == u;
    }
    forall x | TABLE_BASE <= x < t ensures UsesTable(c, x) {
      assert x in TablesOf(c.upstreams);
      var i :| 0 <= i < |c.upstreams| && c.upstreams[i].table == x;
      assert c.upstreams[i] in c.upstreams;
    }
  }

  ghost predicate LowestUnused(c: Config, t: int) {
    && InBand(t) && (forall u :: u in c.upstreams ==> u.table != t)
    && forall x :: TABLE_BASE <= x < t ==> UsesTable(c, x)
  }

  predicate UsesTable(c: Config, t: int) { exists u :: u in c.upstreams && u.table == t }

  function EditedAll(host: Host, c: Config, es: seq<Edit>): Config
    decreases |es|
  {
    if es == [] then c else EditedAll(host, Edited(host, c, es[0]), es[1..])
  }

  ghost predicate WellKept(host: Host, c: Config) {
    Valid(host, c) && "" !in c.perCN
  }

  lemma EditKeepsConfig(host: Host, c: Config, e: Edit)
    requires WellKept(host, c)
    ensures WellKept(host, Edited(host, c, e))
  {
    match e
    case Add(u) => WithAddedExact(host, c, u);
    case Delete(id) =>
      if Without(c, id).1 {
        var u := Find(c, id).value;
        assert EntryOk(host, u) by {
          var i :| 0 <= i < |c.upstreams| && c.upstreams[i] == u;
        }
        WithoutExact(host, c, id);
      }
    case AssignTo(cn, target, clear) => AssignExact(host, c, cn, target, clear);
    case Default(to) => SetDefaultExact(host, c, to);
  }

  /** Whatever the admin does, the stored configuration is valid, no override is keyed by "", and every
      client resolves to a defined upstream or to none. */
  lemma {:induction false} ReachableConfigsAreValid(host: Host, es: seq<Edit>, cn: string)
    ensures var c := EditedAll(host, EMPTY_CONFIG, es);
      WellKept(host, c) && (Resolve(c, cn) == "" || Find(c, Resolve(c, cn)).Some?)
  {
    EditsKeepConfig(host, EMPTY_CONFIG, es);
    var c := EditedAll(host, EMPTY_CONFIG, es);
    ResolvesToDefined(host, c, cn);
  }

  lemma {:induction false} EditsKeepConfig(host: Host, c: Config, es: seq<Edit>)
    requires WellKept(host, c)
    ensures WellKept(host, EditedAll(host, c, es))
    decreases |es|
  {
    if es != [] {
      EditKeepsConfig(host, c, es[0]);
      EditsKeepConfig(host, Edited(host, c, es[0]), es[1..]);
    }
  }

  lemma ResolvesToDefined(host: Host, c: Config, cn: string)
    requires Valid(host, c)
    ensures Resolve(c, cn) == "" <==> Find(c, Resolve(c, cn)).None?
    ensures cn in c.perCN ==> Find(c, c.perCN[cn]).Some?
  {
    if cn in c.perCN {
      assert Defined(c, c.perCN[cn]);
    }
  }
}
