/**
 The certificate lifecycle: the certs table with its two unique indexes
 (internal/store), the published revocation list, and the operations of
 internal/api/handlers.go that must keep the list in step with the table.
 Passphrases, disk writes and the random serial are parameters.
 */
module Certificates {
  import opened Wrappers
  import opened UpstreamConfig

  datatype Kind = Server | Client

  datatype Cert = Cert(
    serial: string, cn: string, kind: Kind, issuedAt: int, notAfter: int, revokedAt: Option<int>, dnsLine: bool)

  type Table = map<string, Cert>

  datatype State = State(certs: Table, crl: map<string, int>)

  datatype Error =
    | NoActiveCert | DuplicateCN | DuplicateSerial | BadName | BadDays | BadPassphrase
    | KeyNotEncrypted | CrlNotWritten | FileNotWritten | NoServerCN

  // ----- the store -----

  /** The row a (kind, cn) pair names: a client by its CN, the server by kind alone. */
  predicate Names(kind: Kind, cn: string, c: Cert) {
    c.kind == kind && (kind.Server? || c.cn == cn) && c.revokedAt.None?
  }

  predicate HasActive(t: Table, kind: Kind, cn: string) {
    exists s :: s in t && Names(kind, cn, t[s])
  }

  /** INSERT, under the primary key and the two partial unique indexes. */
  function Insert(t: Table, c: Cert): Result<Table, Error> {
    if c.serial in t then Err(DuplicateSerial)
    else if c.revokedAt.None? && HasActive(t, c.kind, c.cn) then Err(DuplicateCN)
    else Ok(t[c.serial := c])
  }

  function Retire(t: Table, kind: Kind, cn: string, now: int): Table {
    map s | s in t :: if Names(kind, cn, t[s]) then t[s].(revokedAt := Some(now)) else t[s]
  }

  /** One transaction: a refused insert rolls the retirement back. */
  function Replace(t: Table, c: Cert, now: int): Result<Table, Error> {
    Insert(Retire(t, c.kind, c.cn, now), c)
  }

  predicate IsActiveClient(t: Table, serial: string) {
    serial in t && t[serial].kind.Client? && t[serial].revokedAt.None?
  }

  function Revoked(t: Table): map<string, int> {
    map s | s in t && t[s].revokedAt.Some? :: t[s].revokedAt.value
  }

  predicate IsRow(t: Table, c: Cert) { exists s :: s in t && t[s] == c }

  // ----- the operations -----

  /** What the outside world contributes to one operation. */
  datatype Outside = Outside(
    passphraseOk: bool, serial: string, now: int, notAfter: int,
    keyOk: bool, certFileOk: bool, keyFileOk: bool, crlOk: bool)

  datatype Request = Request(cn: string, days: int, keyPass: bool, renew: bool)

  /** pki.Issue's checks, in its order. */
  function IssueError(cn: string, days: int, o: Outside): Option<Error> {
    if !NameOk(cn) then Some(BadName)
    else if days <= 0 then Some(BadDays)
    else if !o.passphraseOk then Some(BadPassphrase)
    else None
  }

  function NewCert(cn: string, kind: Kind, o: Outside): Cert {
    Cert(o.serial, cn, kind, o.now, o.notAfter, None, true)
  }

  /** Signs and writes a list of the whole revoked set. */
  function Regen(s: State, o: Outside): (State, Option<Error>) {
    if !o.passphraseOk then (s, Some(BadPassphrase))
    else if !o.crlOk then (s, Some(CrlNotWritten))
    else (s.(crl := Revoked(s.certs)), None)
  }

  function IssueClient(s: State, r: Request, o: Outside): (State, Option<Error>) {
    if r.renew && !HasActive(s.certs, Client, r.cn) then (s, Some(NoActiveCert))
    else if IssueError(r.cn, r.days, o).Some? then (s, IssueError(r.cn, r.days, o))
    else if r.keyPass && !o.keyOk then (s, Some(KeyNotEncrypted))
    else
      var c := NewCert(r.cn, Client, o);
      match (if r.renew then Replace(s.certs, c, o.now) else Insert(s.certs, c))
      case Err(e) => (s, Some(e))
      case Ok(t) => if r.renew then Regen(s.(certs := t), o) else (s.(certs := t), None)
  }

  function RevokeCert(s: State, serial: string, o: Outside): (State, Option<Error>) {
    if !o.passphraseOk then (s, Some(BadPassphrase))
    else if !IsActiveClient(s.certs, serial) then (s, Some(NoActiveCert))
    else Regen(s.(certs := s.certs[serial := s.certs[serial].(revokedAt := Some(o.now))]), o)
  }

  function WriteServerCert(s: State, c: Cert, o: Outside): (State, Option<Error>) {
    if !o.certFileOk || !o.keyFileOk then (s, Some(FileNotWritten))
    else match Replace(s.certs, c, o.now)
         case Err(e) => (s, Some(e))
         case Ok(t) => (s.(certs := t), None)
  }

  function InitServer(s: State, cn: string, days: int, o: Outside): (State, Option<Error>) {
    if IssueError(cn, days, o).Some? then (s, IssueError(cn, days, o))
    else WriteServerCert(s, NewCert(cn, Server, o), o)
  }

  function RenewServer(s: State, cn: string, days: int, o: Outside): (State, Option<Error>) {
    if !HasActive(s.certs, Server, "") then (s, Some(NoActiveCert))
    else if cn == "" then (s, Some(NoServerCN))
    else InitServer(s, cn, days, o)
  }

  function SetCertDNS(s: State, serial: string, listed: bool): (State, Option<Error>) {
    if !IsActiveClient(s.certs, serial) then (s, Some(NoActiveCert))
    else (s.(certs := s.certs[serial := s.certs[serial].(dnsLine := listed)]), None)
  }

  // ----- the Go code's own form -----

  class Authority {
    var certs: Table
    var crl: map<string, int>

    constructor ()
      ensures View() == State(map[], map[])
    {
      certs, crl := map[], map[];
    }

    function View(): State
      reads this
    {
      State(certs, crl)
    }

    method RequireActiveCert(cn: string, kind: Kind) returns (err: Option<Error>)
      ensures err == if HasActive(certs, kind, cn) then None else Some(NoActiveCert)
    {
      var todo, n := certs.Keys, 0;
      while todo != {}
        invariant todo <= certs.Keys
        invariant n > 0 <==> exists s :: s in certs && s !in todo && Names(kind, cn, certs[s])
      {
        var s :| s in todo;
        if Names(kind, cn, certs[s]) {
          n := n + 1;
        }
        todo := todo - {s};
      }
      err := if n == 0 then Some(NoActiveCert) else None;
    }

    method AddCert(c: Cert) returns (err: Option<Error>)
      modifies this`certs
      ensures match Insert(old(certs), c)
              case Ok(t) => err.None? && certs == t
              case Err(e) => err == Some(e) && certs == old(certs)
    {
      if c.serial in certs {
        return Some(DuplicateSerial);
      }
      if c.revokedAt.None? {
        var none := RequireActiveCert(c.cn, c.kind);
        if none.None? {
          return Some(DuplicateCN);
        }
      }
      certs := certs[c.serial := c];
      return None;
    }

    method ReplaceCert(c: Cert, now: int) returns (err: Option<Error>)
      modifies this`certs
      ensures match Replace(old(certs), c, now)
              case Ok(t) => err.None? && certs == t
              case Err(e) => err == Some(e) && certs == old(certs)
    {
      var before := certs;
      var todo := certs.Keys;
      while todo != {}
        invariant todo <= before.Keys && certs.Keys == before.Keys
        invariant forall s :: s in before ==>
          certs[s] ==
            if s !in todo && Names(c.kind, c.cn, before[s]) then before[s].(revokedAt := Some(now)) else before[s]
      {
        var s :| s in todo;
        if Names(c.kind, c.cn, certs[s]) {
          certs := certs[s := certs[s].(revokedAt := Some(now))];
        }
        todo := todo - {s};
      }
      assert certs == Retire(before, c.kind, c.cn, now);
      err := AddCert(c);
      if err.Some? {
        certs := before;
      }
    }

    method RevokedCerts() returns (rows: seq<Cert>)
      ensures forall s :: s in certs && certs[s].revokedAt.Some? ==> certs[s] in rows
      ensures forall i :: 0 <= i < |rows| ==> rows[i].revokedAt.Some? && IsRow(certs, rows[i])
    {
      rows := [];
      var todo := certs.Keys;
      while todo != {}
        invariant todo <= certs.Keys
        invariant forall s :: s in certs && s !in todo && certs[s].revokedAt.Some? ==> certs[s] in rows
        invariant forall i :: 0 <= i < |rows| ==> rows[i].revokedAt.Some? && IsRow(certs, rows[i])
      {
        var s :| s in todo;
        if certs[s].revokedAt.Some? {
          rows := rows + [certs[s]];
        }
        todo := todo - {s};
      }
    }

    method RegenCRL(o: Outside) returns (err: Option<Error>)
      requires KeyedBySerial(certs)
      modifies this`crl
      ensures (View(), err) == Regen(old(View()), o)
    {
      var rev := RevokedCerts();
      var entries: map<string, int> := map[];
      for i := 0 to |rev|
        invariant forall s :: s in entries <==> exists j :: 0 <= j < i && rev[j].serial == s
        invariant forall s :: s in entries ==> s in certs && certs[s].revokedAt == Some(entries[s])
      {
        entries := entries[rev[i].serial := rev[i].revokedAt.value];
      }
      assert entries == Revoked(certs) by {
        forall s | s in certs && certs[s].revokedAt.Some? ensures s in entries {
          var j :| 0 <= j < |rev| && rev[j] == certs[s];
        }
      }
      if !o.passphraseOk {
        return Some(BadPassphrase);
      }
      if !o.crlOk {
        return Some(CrlNotWritten);
      }
      crl := entries;
      return None;
    }

    method Issue(r: Request, o: Outside) returns (err: Option<Error>)
      requires KeyedBySerial(certs)
      modifies this
      ensures (View(), err) == IssueClient(old(View()), r, o)
    {
      if r.renew {
        err := RequireActiveCert(r.cn, Client);
        if err.Some? {
          return;
        }
      }
      err := IssueError(r.cn, r.days, o);
      if err.Some? {
        return;
      }
      if r.keyPass && !o.keyOk {
        return Some(KeyNotEncrypted);
      }
      var c := NewCert(r.cn, Client, o);
      if !r.renew {
        err := AddCert(c);
        return;
      }
      err := ReplaceCert(c, o.now);
      if err.Some? {
        return;
      }
      err := RegenCRL(o);
    }

    method Revoke(serial: string, o: Outside) returns (err: Option<Error>)
      requires KeyedBySerial(certs)
      modifies this
      ensures (View(), err) == RevokeCert(old(View()), serial, o)
    {
      if !o.passphraseOk {
        return Some(BadPassphrase);
      }
      if !IsActiveClient(certs, serial) {
        return Some(NoActiveCert);
      }
      certs := certs[serial := certs[serial].(revokedAt := Some(o.now))];
      err := RegenCRL(o);
    }

    method WriteServer(c: Cert, o: Outside) returns (err: Option<Error>)
      modifies this
      ensures (View(), err) == WriteServerCert(old(View()), c, o)
    {
      if !o.certFileOk {
        return Some(FileNotWritten);
      }
      if !o.keyFileOk {
        return Some(FileNotWritten);
      }
      err := ReplaceCert(c, o.now);
    }

    method Renew(cn: string, days: int, o: Outside) returns (err: Option<Error>)
      modifies this
      ensures (View(), err) == RenewServer(old(View()), cn, days, o)
    {
      err := RequireActiveCert("", Server);
      if err.Some? {
        return;
      }
      if cn == "" {
        return Some(NoServerCN);
      }
      err := IssueError(cn, days, o);
      if err.Some? {
        return;
      }
      err := WriteServer(NewCert(cn, Server, o), o);
    }

    method SetDNS(serial: string, listed: bool) returns (changed: bool, err: Option<Error>)
      modifies this`certs
      ensures (View(), err) == SetCertDNS(old(View()), serial, listed)
      ensures changed == (old(certs) != certs)
    {
      if !IsActiveClient(certs, serial) {
        return false, Some(NoActiveCert);
      }
      if certs[serial].dnsLine == listed {
        assert certs[serial := certs[serial].(dnsLine := listed)] == certs;
        return false, None;
      }
      ghost var before := certs;
      certs := certs[serial := certs[serial].(dnsLine := listed)];
      assert certs[serial] != before[serial];
      return true, None;
    }
  }

  // ----- what every run keeps -----

  ghost predicate KeyedBySerial(t: Table) { forall s :: s in t ==> t[s].serial == s }

  predicate Alike(c: Cert, d: Cert) { c.revokedAt.None? && d.revokedAt.None? && c.kind == d.kind }

  /** At most one active client certificate per CN, and at most one active server certificate. */
  ghost predicate OneActive(t: Table) {
    forall a, b :: a in t && b in t && a != b && Alike(t[a], t[b]) ==>
      t[a].kind.Client? && t[a].cn != t[b].cn
  }

  /** Every entry of the published list is a revoked certificate, with its time. */
  ghost predicate CrlSound(s: State) {
    forall x :: x in s.crl ==> x in s.certs && s.certs[x].revokedAt == Some(s.crl[x])
  }

  /** Every revoked client certificate is on the published list. */
  ghost predicate CrlCoversClients(s: State) {
    forall x :: x in s.certs && s.certs[x].kind.Client? && s.certs[x].revokedAt.Some? ==> x in s.crl
  }

  ghost predicate Consistent(s: State) { KeyedBySerial(s.certs) && OneActive(s.certs) && CrlSound(s) }

  /** Certificates are never dropped, never renamed, and a revocation keeps its time for ever. */
  ghost predicate Grows(t: Table, t': Table) {
    forall x :: x in t ==>
      && x in t'
      && t'[x].cn == t[x].cn && t'[x].kind == t[x].kind && t'[x].issuedAt == t[x].issuedAt
        && t'[x].notAfter == t[x].notAfter
      && (t[x].revokedAt.Some? ==> t'[x] == t[x])
  }

  datatype Op =
    | DoIssue(r: Request, o: Outside)
    | DoRevoke(serial: string, o: Outside)
    | DoInitServer(cn: string, days: int, o: Outside)
    | DoRenewServer(cn: string, days: int, o: Outside)
    | DoSetDNS(serial: string, listed: bool)

  function Do(s: State, op: Op): (State, Option<Error>) {
    match op
    case DoIssue(r, o) => IssueClient(s, r, o)
    case DoRevoke(serial, o) => RevokeCert(s, serial, o)
    case DoInitServer(cn, days, o) => InitServer(s, cn, days, o)
    case DoRenewServer(cn, days, o) => RenewServer(s, cn, days, o)
    case DoSetDNS(serial, listed) => SetCertDNS(s, serial, listed)
  }

  lemma InsertKeeps(t: Table, c: Cert)
    requires KeyedBySerial(t) && OneActive(t) && Insert(t, c).Ok?
    ensures var t' := Insert(t, c).value; KeyedBySerial(t') && OneActive(t') && Grows(t, t')
  {
    var t' := t[c.serial := c];
    forall x | x in t && t[x].revokedAt.None? && c.revokedAt.None? && t[x].kind == c.kind
      ensures c.kind.Client? && t[x].cn != c.cn
    {
      assert !Names(c.kind, c.cn, t[x]);
    }
  }

  lemma RetireKeeps(t: Table, kind: Kind, cn: string, now: int)
    requires KeyedBySerial(t) && OneActive(t)
    ensures var t' := Retire(t, kind, cn, now);
      KeyedBySerial(t') && OneActive(t') && Grows(t, t') && !HasActive(t', kind, cn)
  {
  }

  lemma ReplaceKeeps(t: Table, c: Cert, now: int)
    requires KeyedBySerial(t) && OneActive(t) && Replace(t, c, now).Ok?
    ensures var t' := Replace(t, c, now).value; KeyedBySerial(t') && OneActive(t') && Grows(t, t')
  {
    RetireKeeps(t, c.kind, c.cn, now);
    InsertKeeps(Retire(t, c.kind, c.cn, now), c);
  }

  /** Whatever fails on the way: the indexes hold, the list names only revoked certificates, and
      revocation is permanent. */
  lemma StepConsistent(s: State, op: Op)
    requires Consistent(s)
    ensures Consistent(Do(s, op).0) && Grows(s.certs, Do(s, op).0.certs)
  {
    match op
    case DoIssue(r, o) => IssueConsistent(s, r, o);
    case DoRevoke(serial, o) => RevokeConsistent(s, serial, o);
    case DoInitServer(cn, days, o) => ServerConsistent(s, cn, o);
    case DoRenewServer(cn, days, o) => ServerConsistent(s, cn, o);
    case DoSetDNS(serial, listed) => SetDNSConsistent(s, serial, listed);
  }

  lemma SetDNSConsistent(s: State, serial: string, listed: bool)
    requires Consistent(s)
    ensures Consistent(Do(s, DoSetDNS(serial, listed)).0) && Grows(s.certs, Do(s, DoSetDNS(serial, listed)).0.certs)
  {
    SetDNSKeepsRows(s, serial, listed);
    GrowthKeepsCrlSound(s, SetCertDNS(s, serial, listed).0.certs);
  }

  lemma SetDNSKeepsRows(s: State, serial: string, listed: bool)
    requires KeyedBySerial(s.certs) && OneActive(s.certs)
    ensures var s' := SetCertDNS(s, serial, listed).0;
      KeyedBySerial(s'.certs) && OneActive(s'.certs) && Grows(s.certs, s'.certs) && s' == s.(certs := s'.certs)
  {
  }

  /** Any change that only grows the table keeps a sound list sound. */
  lemma GrowthKeepsCrlSound(s: State, t: Table)
    requires CrlSound(s) && Grows(s.certs, t)
    ensures CrlSound(s.(certs := t))
  {
  }

  lemma RegenConsistent(s: State, o: Outside)
    requires Consistent(s)
    ensures Consistent(Regen(s, o).0) && Regen(s, o).0.certs == s.certs
  {
  }

  lemma InsertConsistent(s: State, c: Cert)
    requires Consistent(s) && Insert(s.certs, c).Ok?
    ensures var s' := s.(certs := Insert(s.certs, c).value); Consistent(s') && Grows(s.certs, s'.certs)
  {
    InsertKeeps(s.certs, c);
    GrowthKeepsCrlSound(s, Insert(s.certs, c).value);
  }

  lemma ReplaceConsistent(s: State, c: Cert, now: int)
    requires Consistent(s) && Replace(s.certs, c, now).Ok?
    ensures var s' := s.(certs := Replace(s.certs, c, now).value); Consistent(s') && Grows(s.certs, s'.certs)
  {
    ReplaceKeeps(s.certs, c, now);
    GrowthKeepsCrlSound(s, Replace(s.certs, c, now).value);
  }

  lemma GrowsRefl(t: Table)
    ensures Grows(t, t)
  {
  }

  lemma IssueConsistent(s: State, r: Request, o: Outside)
    requires Consistent(s)
    ensures Consistent(IssueClient(s, r, o).0) && Grows(s.certs, IssueClient(s, r, o).0.certs)
  {
    var c := NewCert(r.cn, Client, o);
    var s' := IssueClient(s, r, o).0;
    if s' == s {
      GrowsRefl(s.certs);
    } else if r.renew {
      var replaced := s.(certs := Replace(s.certs, c, o.now).value);
      ReplaceConsistent(s, c, o.now);
      RegenConsistent(replaced, o);
      assert s' == Regen(replaced, o).0;
    } else {
      InsertConsistent(s, c);
      assert s' == s.(certs := Insert(s.certs, c).value);
    }
  }

  lemma RevokeConsistent(s: State, serial: string, o: Outside)
    requires Consistent(s)
    ensures Consistent(RevokeCert(s, serial, o).0) && Grows(s.certs, RevokeCert(s, serial, o).0.certs)
  {
    if IsActiveClient(s.certs, serial) {
      var t := s.certs[serial := s.certs[serial].(revokedAt := Some(o.now))];
      GrowthKeepsCrlSound(s, t);
      RegenConsistent(s.(certs := t), o);
    }
  }

  lemma ServerConsistent(s: State, cn: string, o: Outside)
    requires Consistent(s)
    ensures var s' := WriteServerCert(s, NewCert(cn, Server, o), o).0; Consistent(s') && Grows(s.certs, s'.certs)
  {
    var c := NewCert(cn, Server, o);
    if Replace(s.certs, c, o.now).Ok? {
      ReplaceKeeps(s.certs, c, o.now);
    }
  }

  /** The passphrase was accepted and every list that was signed reached the disk. */
  predicate CrlWritten(op: Op) {
    match op
    case DoIssue(_, o) => o.crlOk
    case DoRevoke(_, o) => o.crlOk
    case _ => true
  }

  /** A revoked client is on the list when the operation ends, whether the operation succeeded or not. */
  lemma StepCoversClients(s: State, op: Op)
    requires Consistent(s) && CrlCoversClients(s) && CrlWritten(op)
    ensures CrlCoversClients(Do(s, op).0)
  {
    match op
    case DoIssue(r, o) =>
    case DoRevoke(serial, o) =>
    case DoInitServer(cn, days, o) => ServerRevokesNoClient(s, cn, o);
    case DoRenewServer(cn, days, o) => ServerRevokesNoClient(s, cn, o);
    case DoSetDNS(serial, listed) =>
  }

  lemma ServerRevokesNoClient(s: State, cn: string, o: Outside)
    requires Consistent(s) && CrlCoversClients(s)
    ensures CrlCoversClients(WriteServerCert(s, NewCert(cn, Server, o), o).0)
  {
  }

  function RunAll(s: State, ops: seq<Op>): State
    decreases |ops|
  {
    if ops == [] then s else RunAll(Do(s, ops[0]).0, ops[1..])
  }

  const FRESH := State(map[], map[])

  lemma {:induction false} RunConsistent(s: State, ops: seq<Op>)
    requires Consistent(s)
    ensures Consistent(RunAll(s, ops)) && Grows(s.certs, RunAll(s, ops).certs)
    decreases |ops|
  {
    if ops != [] {
      StepConsistent(s, ops[0]);
      RunConsistent(Do(s, ops[0]).0, ops[1..]);
    }
  }

  lemma {:induction false} RunCoversClients(s: State, ops: seq<Op>)
    requires Consistent(s) && CrlCoversClients(s) && forall i :: 0 <= i < |ops| ==> CrlWritten(ops[i])
    ensures CrlCoversClients(RunAll(s, ops))
    decreases |ops|
  {
    if ops != [] {
      StepConsistent(s, ops[0]);
      StepCoversClients(s, ops[0]);
      RunCoversClients(Do(s, ops[0]).0, ops[1..]);
    }
  }

  /** In every run from an empty store whose lists reach the disk, the published list lies between the revoked
      clients and the revoked certificates: only a server certificate can be revoked and missing. */
  lemma OnlyServersCanBeMissing(ops: seq<Op>)
    requires forall i :: 0 <= i < |ops| ==> CrlWritten(ops[i])
    ensures var s := RunAll(FRESH, ops);
      && OneActive(s.certs)
      && (forall x :: x in s.crl ==> x in Revoked(s.certs) && Revoked(s.certs)[x] == s.crl[x])
      && (forall x :: x in Revoked(s.certs) && x !in s.crl ==> s.certs[x].kind.Server?)
  {
    RunConsistent(FRESH, ops);
    RunCoversClients(FRESH, ops);
  }

  /** Right after a successful revocation the list is the revoked set, the certificate among them. */
  lemma RevokePublishes(s: State, serial: string, o: Outside)
    requires Consistent(s) && RevokeCert(s, serial, o).1.None?
    ensures var s' := RevokeCert(s, serial, o).0;
      && s'.crl == Revoked(s'.certs)
      && serial in s'.crl && s'.crl[serial] == o.now
      && !HasActive(s'.certs, Client, s.certs[serial].cn)
  {
    var s' := RevokeCert(s, serial, o).0;
    forall x | x in s'.certs ensures !Names(Client, s.certs[serial].cn, s'.certs[x]) {
    }
  }

  /** Right after a successful client renewal the list is the revoked set, the outgoing certificate is on it,
      and the new one is the client's only active certificate. */
  lemma RenewalPublishes(s: State, r: Request, o: Outside, outgoing: string)
    requires Consistent(s) && r.renew && IssueClient(s, r, o).1.None?
    requires outgoing in s.certs && Names(Client, r.cn, s.certs[outgoing])
    ensures var s' := IssueClient(s, r, o).0;
      && s'.crl == Revoked(s'.certs)
      && outgoing in s'.crl && s'.crl[outgoing] == o.now
      && forall x :: x in s'.certs ==> (Names(Client, r.cn, s'.certs[x]) <==> x == o.serial)
  {
    RetireKeeps(s.certs, Client, r.cn, o.now);
    var c := NewCert(r.cn, Client, o);
    assert IssueClient(s, r, o).0.certs == Retire(s.certs, Client, r.cn, o.now)[o.serial := c];
  }

  /** What a server renewal leaves off the list: the certificate it retires, until the next list is signed. */
  lemma ServerRenewalDefersItsRevocation(s: State, cn: string, days: int, o: Outside, outgoing: string)
    requires Consistent(s) && RenewServer(s, cn, days, o).1.None?
    requires outgoing in s.certs && Names(Server, "", s.certs[outgoing])
    ensures var s' := RenewServer(s, cn, days, o).0;
      && outgoing in Revoked(s'.certs) && outgoing !in s'.crl
      && (Regen(s', o.(crlOk := true)).1.None? ==> outgoing in Regen(s', o.(crlOk := true)).0.crl)
      && forall x :: x in s'.certs ==> (Names(Server, cn, s'.certs[x]) <==> x == o.serial)
  {
    RetireKeeps(s.certs, Server, cn, o.now);
    var c := NewCert(cn, Server, o);
    var s' := RenewServer(s, cn, days, o).0;
    assert s'.certs == Retire(s.certs, Server, cn, o.now)[o.serial := c];
    assert Retire(s.certs, Server, cn, o.now)[outgoing].revokedAt == Some(o.now);
  }

  /** The operation signed and wrote a list. */
  predicate Signed(s: State, op: Op) {
    match op
    case DoIssue(r, o) => r.renew && IssueClient(s, r, o).1.None?
    case DoRevoke(serial, o) => RevokeCert(s, serial, o).1.None?
    case _ => false
  }

  /** The operation replaced an active server certificate, by a renewal or by another init. */
  predicate RetiresServer(s: State, op: Op) {
    (op.DoInitServer? || op.DoRenewServer?) && Do(s, op).1.None? && HasActive(s.certs, Server, "")
  }

  predicate AllListed(s: State) { s.crl == Revoked(s.certs) }

  lemma NoServerToRetire(t: Table, cn: string, now: int)
    requires !HasActive(t, Server, "")
    ensures Retire(t, Server, cn, now) == t
  {
    forall x | x in t ensures !Names(Server, cn, t[x]) {
      assert !Names(Server, "", t[x]);
    }
  }

  lemma RetiredIsMissing(s: State, cn: string, o: Outside, x: string)
    requires CrlSound(s) && x in s.certs && Names(Server, "", s.certs[x])
    requires WriteServerCert(s, NewCert(cn, Server, o), o).1.None?
    ensures !AllListed(WriteServerCert(s, NewCert(cn, Server, o), o).0)
  {
    var s' := WriteServerCert(s, NewCert(cn, Server, o), o).0;
    assert s'.certs == Retire(s.certs, Server, cn, o.now)[o.serial := NewCert(cn, Server, o)];
    assert Names(Server, cn, s.certs[x]);
    assert x in Revoked(s'.certs) && x !in s.crl;
  }

  lemma AddingKeepsRevoked(t: Table, c: Cert)
    requires c.serial !in t && c.revokedAt.None?
    ensures Revoked(t[c.serial := c]) == Revoked(t)
  {
  }

  lemma ServerLists(s: State, cn: string, o: Outside)
    requires Consistent(s)
    ensures var (s', e) := WriteServerCert(s, NewCert(cn, Server, o), o);
      AllListed(s') <==> !(e.None? && HasActive(s.certs, Server, "")) && AllListed(s)
  {
    if WriteServerCert(s, NewCert(cn, Server, o), o).1.None? {
      if x :| x in s.certs && Names(Server, "", s.certs[x]) {
        RetiredIsMissing(s, cn, o, x);
      } else {
        NoServerToRetire(s.certs, cn, o.now);
        AddingKeepsRevoked(s.certs, NewCert(cn, Server, o));
      }
    }
  }

  lemma IssueLists(s: State, r: Request, o: Outside)
    requires Consistent(s) && o.crlOk
    ensures AllListed(IssueClient(s, r, o).0) <==> (r.renew && IssueClient(s, r, o).1.None?) || AllListed(s)
  {
    if !r.renew && IssueClient(s, r, o).1.None? {
      AddingKeepsRevoked(s.certs, NewCert(r.cn, Client, o));
    }
  }

  lemma RevokeLists(s: State, serial: string, o: Outside)
    requires Consistent(s) && o.crlOk
    ensures AllListed(RevokeCert(s, serial, o).0) <==> RevokeCert(s, serial, o).1.None? || AllListed(s)
  {
  }

  lemma SetDNSLists(s: State, serial: string, listed: bool)
    ensures AllListed(SetCertDNS(s, serial, listed).0) <==> AllListed(s)
  {
    assert Revoked(SetCertDNS(s, serial, listed).0.certs) == Revoked(s.certs);
  }

  /** After an operation the list is the revoked set exactly if the operation signed it, or retired no server
      certificate and found it so. */
  lemma StepLists(s: State, op: Op)
    requires Consistent(s) && CrlWritten(op)
    ensures AllListed(Do(s, op).0) <==> Signed(s, op) || (!RetiresServer(s, op) && AllListed(s))
  {
    match op
    case DoIssue(r, o) => IssueLists(s, r, o);
    case DoRevoke(serial, o) => RevokeLists(s, serial, o);
    case DoInitServer(cn, days, o) => ServerLists(s, cn, o);
    case DoRenewServer(cn, days, o) => ServerLists(s, cn, o);
    case DoSetDNS(serial, listed) => SetDNSLists(s, serial, listed);
  }

  /** A server certificate has been retired, and no list signed since. */
  function Outstanding(s: State, ops: seq<Op>, before: bool): bool
    decreases |ops|
  {
    if ops == [] then before
    else Outstanding(Do(s, ops[0]).0, ops[1..], !Signed(s, ops[0]) && (RetiresServer(s, ops[0]) || before))
  }

  lemma {:induction false} RunLists(s: State, ops: seq<Op>)
    requires Consistent(s) && forall i :: 0 <= i < |ops| ==> CrlWritten(ops[i])
    ensures AllListed(RunAll(s, ops)) <==> !Outstanding(s, ops, !AllListed(s))
    decreases |ops|
  {
    if ops != [] {
      StepConsistent(s, ops[0]);
      StepLists(s, ops[0]);
      RunLists(Do(s, ops[0]).0, ops[1..]);
    }
  }

  /** In every run from an empty store whose lists reach the disk, the published list is the revoked set exactly
      when no server certificate has been retired since the last list was signed. */
  lemma ListedExactly(ops: seq<Op>)
    requires forall i :: 0 <= i < |ops| ==> CrlWritten(ops[i])
    ensures AllListed(RunAll(FRESH, ops)) <==> !Outstanding(FRESH, ops, false)
  {
    RunLists(FRESH, ops);
  }

  // ----- what one operation does, in every case -----

  /** The error of the first check that fails. */
  function FirstFailing(checks: seq<(bool, Error)>): Option<Error> {
    if checks == [] then None
    else if !checks[0].0 then Some(checks[0].1)
    else FirstFailing(checks[1..])
  }

  predicate ActiveClient(t: Table, cn: string, x: string) {
    x in t && t[x].kind == Client && t[x].cn == cn && t[x].revokedAt == None
  }

  predicate ActiveServer(t: Table, x: string) { x in t && t[x].kind == Server && t[x].revokedAt == None }

  /** c is in, and every other row is as it was. */
  predicate RowAdded(t: Table, t': Table, c: Cert) {
    t' == t[c.serial := c] && c.serial !in t
  }

  /** Each certificate that retires says so is revoked now, and nothing else about any row has changed. */
  ghost predicate RowsRetired(t: Table, t': Table, retires: string -> bool, now: int) {
    && t'.Keys == t.Keys
    && forall x :: x in t ==> t'[x] == if retires(x) then t[x].(revokedAt := Some(now)) else t[x]
  }

  lemma NoneActive(t: Table, cn: string)
    ensures HasActive(t, Client, cn) <==> exists x :: ActiveClient(t, cn, x)
    ensures HasActive(t, Server, cn) <==> exists x :: ActiveServer(t, x)
  {
    if x :| ActiveClient(t, cn, x) {
      assert Names(Client, cn, t[x]);
    }
    if x :| ActiveServer(t, x) {
      assert Names(Server, cn, t[x]);
    }
    if x :| x in t && Names(Client, cn, t[x]) {
      assert ActiveClient(t, cn, x);
    }
    if x :| x in t && Names(Server, cn, t[x]) {
      assert ActiveServer(t, x);
    }
  }

  /** A first issue succeeds exactly for an acceptable request with a new serial and a client without an active
      certificate, and then adds that client's one active certificate and nothing else. A refused one names the
      first check that failed and leaves no trace. */
  lemma FirstIssueExact(s: State, r: Request, o: Outside)
    requires !r.renew
    ensures var (s', err) := IssueClient(s, r, o);
      && err == FirstFailing([
           (NameOk(r.cn), BadName), (r.days > 0, BadDays), (o.passphraseOk, BadPassphrase),
           (r.keyPass ==> o.keyOk, KeyNotEncrypted), (o.serial !in s.certs, DuplicateSerial),
           (!exists x :: ActiveClient(s.certs, r.cn, x), DuplicateCN)])
      && s'.crl == s.crl
      && (err.Some? ==> s' == s)
      && (err.None? ==>
            && RowAdded(s.certs, s'.certs, Cert(o.serial, r.cn, Client, o.now, o.notAfter, None, true))
            && forall x :: ActiveClient(s'.certs, r.cn, x) <==> x == o.serial)
  {
    NoneActive(s.certs, r.cn);
    Unfolded6((NameOk(r.cn), BadName), (r.days > 0, BadDays), (o.passphraseOk, BadPassphrase),
              (r.keyPass ==> o.keyOk, KeyNotEncrypted), (o.serial !in s.certs, DuplicateSerial),
              (!exists x :: ActiveClient(s.certs, r.cn, x), DuplicateCN));
  }

  lemma Unfolded6(a: (bool, Error), b: (bool, Error), c: (bool, Error), d: (bool, Error), e: (bool, Error),
                  f: (bool, Error))
    ensures FirstFailing([a, b, c, d, e, f]) ==
      if !a.0 then Some(a.1) else if !b.0 then Some(b.1) else if !c.0 then Some(c.1)
      else if !d.0 then Some(d.1) else if !e.0 then Some(e.1) else if !f.0 then Some(f.1) else None
  {
    FirstThen(f, []);
    FirstThen(e, [f]);
    FirstThen(d, [e, f]);
    FirstThen(c, [d, e, f]);
    FirstThen(b, [c, d, e, f]);
    FirstThen(a, [b, c, d, e, f]);
    assert [a] + [b, c, d, e, f] == [a, b, c, d, e, f];
    assert [b] + [c, d, e, f] == [b, c, d, e, f];
    assert [c] + [d, e, f] == [c, d, e, f];
    assert [d] + [e, f] == [d, e, f];
    assert [e] + [f] == [e, f];
    assert [f] + [] == [f];
  }

  lemma FirstThen(check: (bool, Error), rest: seq<(bool, Error)>)
    ensures FirstFailing([check] + rest) == if check.0 then FirstFailing(rest) else Some(check.1)
  {
    assert ([check] + rest)[1..] == rest;
  }

  /** A renewal goes through exactly for a client with an active certificate, an acceptable request and a new
      serial: the active certificate is revoked, the new one added, and the whole revoked set published. If only
      the list could not be written the rows have changed all the same. */
  lemma RenewalExact(s: State, r: Request, o: Outside)
    requires r.renew
    ensures var (s', err) := IssueClient(s, r, o);
      var refused := FirstFailing([
        (exists x :: ActiveClient(s.certs, r.cn, x), NoActiveCert), (NameOk(r.cn), BadName), (r.days > 0, BadDays),
        (o.passphraseOk, BadPassphrase), (r.keyPass ==> o.keyOk, KeyNotEncrypted),
        (o.serial !in s.certs, DuplicateSerial)]);
      if refused.Some? then err == refused && s' == s
      else
        && err == (if o.crlOk then None else Some(CrlNotWritten))
        && s'.crl == (if o.crlOk then Revoked(s'.certs) else s.crl)
        && Replaced(s.certs, s'.certs, x => ActiveClient(s.certs, r.cn, x),
                    Cert(o.serial, r.cn, Client, o.now, o.notAfter, None, true), o.now)
  {
    NoneActive(s.certs, r.cn);
    Unfolded6((exists x :: ActiveClient(s.certs, r.cn, x), NoActiveCert), (NameOk(r.cn), BadName),
              (r.days > 0, BadDays), (o.passphraseOk, BadPassphrase), (r.keyPass ==> o.keyOk, KeyNotEncrypted),
              (o.serial !in s.certs, DuplicateSerial));
    ReplaceExact(s.certs, NewCert(r.cn, Client, o), o.now, x => ActiveClient(s.certs, r.cn, x));
  }

  /** The certificates that it takes the place of are revoked now, c is added, and no other row changes. */
  ghost predicate Replaced(t: Table, t': Table, outgoing: string -> bool, c: Cert, now: int) {
    && c.serial in t' && t'[c.serial] == c
    && RowsRetired(t, t' - {c.serial}, outgoing, now)
  }

  /** Only the serial can be in the way of a replacement. */
  lemma ReplaceExact(t: Table, c: Cert, now: int, outgoing: string -> bool)
    requires c.revokedAt.None? && forall x :: x in t ==> (outgoing(x) <==> Names(c.kind, c.cn, t[x]))
    ensures var r := Replace(t, c, now);
      && (r.Err? ==> r.error == DuplicateSerial) && (r.Ok? <==> c.serial !in t)
      && (r.Ok? ==> Replaced(t, r.value, outgoing, c, now))
  {
    assert !HasActive(Retire(t, c.kind, c.cn, now), c.kind, c.cn);
    if c.serial !in t {
      assert Retire(t, c.kind, c.cn, now)[c.serial := c] - {c.serial} == Retire(t, c.kind, c.cn, now);
    }
  }

  /** A revocation goes through exactly for the active certificate of a client and the right passphrase: that one
      row is revoked now, and the whole revoked set published. */
  lemma RevokeExact(s: State, serial: string, o: Outside)
    ensures var (s', err) := RevokeCert(s, serial, o);
      if !o.passphraseOk then err == Some(BadPassphrase) && s' == s
      else if !(serial in s.certs && s.certs[serial].kind == Client && s.certs[serial].revokedAt == None) then
        err == Some(NoActiveCert) && s' == s
      else
        && err == (if o.crlOk then None else Some(CrlNotWritten))
        && s'.crl == (if o.crlOk then Revoked(s'.certs) else s.crl)
        && RowsRetired(s.certs, s'.certs, x => x == serial, o.now)
  {
  }

  /** An init or renewal of the server goes through exactly for an acceptable request whose files were written,
      with a new serial, and for a renewal an active certificate with a name: the active server certificate, if
      there is one, is revoked, the new one added, and the list left alone. */
  lemma ServerExact(s: State, cn: string, days: int, o: Outside)
    ensures var (s', err) := InitServer(s, cn, days, o);
      && err == FirstFailing([
           (NameOk(cn), BadName), (days > 0, BadDays), (o.passphraseOk, BadPassphrase),
           (o.certFileOk, FileNotWritten), (o.keyFileOk, FileNotWritten), (o.serial !in s.certs, DuplicateSerial)])
      && s'.crl == s.crl
      && (err.Some? ==> s' == s)
      && (err.None? ==>
            && Replaced(s.certs, s'.certs, x => ActiveServer(s.certs, x),
                        Cert(o.serial, cn, Server, o.now, o.notAfter, None, true), o.now)
            && forall x :: ActiveServer(s'.certs, x) <==> x == o.serial)
    ensures RenewServer(s, cn, days, o) ==
      if !exists x :: ActiveServer(s.certs, x) then (s, Some(NoActiveCert))
      else if cn == "" then (s, Some(NoServerCN))
      else InitServer(s, cn, days, o)
  {
    NoneActive(s.certs, "");
    Unfolded6((NameOk(cn), BadName), (days > 0, BadDays), (o.passphraseOk, BadPassphrase),
              (o.certFileOk, FileNotWritten), (o.keyFileOk, FileNotWritten),
              (o.serial !in s.certs, DuplicateSerial));
    ReplaceExact(s.certs, NewCert(cn, Server, o), o.now, x => ActiveServer(s.certs, x));
  }

  /** The DNS flag of an active client certificate, and nothing else, becomes what was asked for. */
  lemma SetDNSExact(s: State, serial: string, listed: bool)
    ensures var (s', err) := SetCertDNS(s, serial, listed);
      if !(serial in s.certs && s.certs[serial].kind == Client && s.certs[serial].revokedAt == None) then
        err == Some(NoActiveCert) && s' == s
      else
        && err == None && s'.crl == s.crl && s'.certs.Keys == s.certs.Keys
        && s'.certs[serial].dnsLine == listed
        && s'.certs[serial].(dnsLine := s.certs[serial].dnsLine) == s.certs[serial]
        && forall x :: x in s.certs && x != serial ==> s'.certs[x] == s.certs[x]
  {
  }

  /** A second certificate for a client with an active one is refused without a trace. */
  lemma DuplicateIssueRefused(s: State, r: Request, o: Outside)
    requires !r.renew && HasActive(s.certs, Client, r.cn)
    ensures IssueClient(s, r, o).1.Some? && IssueClient(s, r, o).0 == s
  {
  }
}
