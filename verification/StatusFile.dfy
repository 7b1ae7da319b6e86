/**
 OpenVPN's status document and the kill command of internal/controller/mgmt.go:
 parseStatusFile must return the whole session list or an error, never a part of
 it, and Kill must reach exactly the sessions of one client.
 */
module StatusFile {
  import opened Wrappers
  import opened Lines
  import opened Seqs

  datatype VPNClient = VPNClient(
    cid: string, cn: string, realAddress: string, virtualAddress: string,
    bytesRecv: nat, bytesSent: nat, connectedSince: Option<int>, cipher: string)

  const MAX_UINT64 := 0xFFFF_FFFF_FFFF_FFFF
  const MIN_INT64 := -0x8000_0000_0000_0000
  const MAX_INT64 := 0x7FFF_FFFF_FFFF_FFFF
  const MIN_FIELDS := 12

  // ----- numbers -----

  datatype NumError = Fine | Syntax | Range

  predicate IsDigit(c: char) { '0' <= c <= '9' }

  /** strconv.ParseUint's loop: digit by digit, stopping at the first error it meets. */
  function ParseDigits(s: string, n: nat): (nat, NumError) {
    if s == [] then (n, Fine)
    else if !IsDigit(s[0]) then (0, Syntax)
    else
      var m := n * 10 + (s[0] as int - '0' as int);
      if m > MAX_UINT64 then (MAX_UINT64, Range) else ParseDigits(s[1..], m)
  }

  function ParseUint(s: string): (nat, NumError) {
    if s == [] then (0, Syntax) else ParseDigits(s, 0)
  }

  function ParseInt(s: string): Option<int> {
    if s == [] then None
    else
      var neg := s[0] == '-';
      var (un, err) := ParseUint(if neg || s[0] == '+' then s[1..] else s);
      var signed: int := if neg then 0 - un else un;
      if err.Syntax? || signed < MIN_INT64 || signed > MAX_INT64 then None else Some(signed)
  }

  function Digit(d: nat): char
    requires d < 10
  {
    ('0' as int + d) as char
  }

  function Decimal(n: nat): (s: string)
    ensures s != [] && forall i :: 0 <= i < |s| ==> IsDigit(s[i])
  {
    if n < 10 then [Digit(n)] else Decimal(n / 10) + [Digit(n % 10)]
  }

  function SignedDecimal(n: int): string {
    if n < 0 then "-" + Decimal(-n) else Decimal(n)
  }

  lemma {:induction false} ParseDigitsSnoc(s: string, n: nat, c: char)
    requires IsDigit(c) && ParseDigits(s, n).1.Fine?
    ensures ParseDigits(s + [c], n) ==
      var m := ParseDigits(s, n).0 * 10 + (c as int - '0' as int);
      if m > MAX_UINT64 then (MAX_UINT64, Range) else (m, Fine)
    decreases |s|
  {
    if s == [] {
      assert (s + [c])[1..] == [];
    } else {
      assert (s + [c])[1..] == s[1..] + [c];
      ParseDigitsSnoc(s[1..], n * 10 + (s[0] as int - '0' as int), c);
    }
  }

  /** A counter survives being printed and parsed. */
  lemma {:induction false} DecimalRoundTrip(n: nat)
    requires n <= MAX_UINT64
    ensures ParseUint(Decimal(n)) == (n, Fine)
  {
    if n < 10 {
      assert Decimal(n)[1..] == [];
      assert ParseDigits(Decimal(n), 0) == ParseDigits([], n);
    } else {
      DecimalRoundTrip(n / 10);
      ParseDigitsSnoc(Decimal(n / 10), 0, Digit(n % 10));
    }
  }

  lemma TimeRoundTrip(n: int)
    requires MIN_INT64 <= n <= MAX_INT64
    ensures ParseInt(SignedDecimal(n)) == Some(n)
  {
    DecimalRoundTrip(if n < 0 then -n else n);
    if n < 0 {
      assert SignedDecimal(n)[1..] == Decimal(-n);
    }
  }

  /** The number that digits stand for. */
  function Value(digits: string): nat
    requires forall i :: 0 <= i < |digits| ==> IsDigit(digits[i])
  {
    if digits == [] then 0
    else
      var last := digits[|digits| - 1];
      assert IsDigit(last);
      Value(digits[..|digits| - 1]) * 10 + (last as int - '0' as int)
  }

  /** How many digits s starts with. */
  function Leading(s: string): (n: nat)
    ensures n <= |s| && (forall i :: 0 <= i < n ==> IsDigit(s[i])) && (n < |s| ==> !IsDigit(s[n]))
  {
    if s == [] || !IsDigit(s[0]) then 0 else 1 + Leading(s[1..])
  }

  lemma {:induction false} ValueGrows(digits: string, n: nat)
    requires (forall i :: 0 <= i < |digits| ==> IsDigit(digits[i])) && n <= |digits|
    ensures Value(digits[..n]) <= Value(digits)
    decreases |digits|
  {
    if n < |digits| {
      var init := digits[..|digits| - 1];
      assert init[..n] == digits[..n];
      ValueGrows(init, n);
    } else {
      assert digits[..n] == digits;
    }
  }

  lemma ParseOne(s: string, k: nat, v: nat)
    requires k < |s| && IsDigit(s[k])
    ensures ParseDigits(s[k..], v) ==
      var m := v * 10 + (s[k] as int - '0' as int);
      if m > MAX_UINT64 then (MAX_UINT64, Range) else ParseDigits(s[k + 1..], m)
  {
    assert s[k..][1..] == s[k + 1..];
  }

  lemma ValueOne(s: string, k: nat)
    requires k < |s| && forall i :: 0 <= i <= k ==> IsDigit(s[i])
    ensures Value(s[..k + 1]) == Value(s[..k]) * 10 + (s[k] as int - '0' as int)
  {
    assert s[..k + 1][..k] == s[..k];
  }

  /** Reading on from k digits that fit: the leading digits decide, and the first thing wrong is reported. */
  lemma {:induction false} ParseFrom(s: string, k: nat)
    requires k <= Leading(s) && Value(s[..k]) <= MAX_UINT64
    ensures ParseDigits(s[k..], Value(s[..k])) ==
      if Value(s[..Leading(s)]) > MAX_UINT64 then (MAX_UINT64, Range)
      else if Leading(s) < |s| then (0, Syntax)
      else (Value(s), Fine)
    decreases |s| - k
  {
    var n := Leading(s);
    assert forall i :: 0 <= i < n ==> s[..n][i] == s[i];
    if k < n {
      ParseOne(s, k, Value(s[..k]));
      ValueOne(s, k);
      if Value(s[..k + 1]) > MAX_UINT64 {
        ValueGrows(s[..n], k + 1);
        assert s[..n][..k + 1] == s[..k + 1];
      } else {
        ParseFrom(s, k + 1);
      }
    } else if n == |s| {
      assert s[..n] == s;
    }
  }

  /** strconv.ParseUint on any text: its value if it is all digits and fits; the largest number if the digits it
      starts with do not fit; and 0 for anything else. */
  lemma ParseUintExact(s: string)
    ensures ParseUint(s) ==
      if s == [] then (0, Syntax)
      else if Value(s[..Leading(s)]) > MAX_UINT64 then (MAX_UINT64, Range)
      else if Leading(s) < |s| then (0, Syntax)
      else (Value(s), Fine)
  {
    if s != [] {
      ParseFrom(s, 0);
      assert s[0..] == s;
    }
  }

  /** strconv.ParseInt on any text: the value of an optional sign and digits if it is in range, else an error. */
  lemma ParseIntExact(s: string)
    ensures var neg := s != [] && s[0] == '-';
      var digits := if s != [] && (s[0] == '-' || s[0] == '+') then s[1..] else s;
      ParseInt(s) ==
        if digits == [] || Leading(digits) < |digits| then None
        else
          var n: int := if neg then 0 - Value(digits) else Value(digits);
          if MIN_INT64 <= n <= MAX_INT64 then Some(n) else None
  {
    var digits := if s != [] && (s[0] == '-' || s[0] == '+') then s[1..] else s;
    ParseUintExact(digits);
    if digits != [] && Leading(digits) == |digits| {
      assert digits[..|digits|] == digits;
    }
  }

  // ----- parsing -----

  const ROW_PREFIX := "CLIENT_LIST\t"

  /** One line's session, if it is a complete CLIENT_LIST row. */
  function ParseRow(line: string): Option<VPNClient> {
    if !(ROW_PREFIX <= line) then None
    else
      var f := Split(line, '\t');
      if |f| < MIN_FIELDS then None
      else Some(VPNClient(f[10], f[1], f[2], f[3], ParseUint(f[5]).0, ParseUint(f[6]).0, ParseInt(f[8]),
                          if |f| >= 13 then f[12] else ""))
  }

  function OptSeq<T>(o: Option<T>): seq<T> {
    match o case None => [] case Some(x) => [x]
  }

  /** None is the error: no END line. */
  function ParseStatus(s: string): Option<seq<VPNClient>>
    decreases |s|
  {
    match NextLine(s)
    case None => None
    case Some((raw, rest)) =>
      var line := TrimCRLF(raw);
      if line == "END" then Some([])
      else Prepend(OptSeq(ParseRow(line)), ParseStatus(rest))
  }

  lemma PrependMore(out: seq<VPNClient>, row: seq<VPNClient>, r: Option<seq<VPNClient>>)
    ensures Prepend(out, Prepend(row, r)) == Prepend(out + row, r)
    ensures Prepend([], r) == r
    ensures out + [] == out
  {
    if r.Some? {
      assert out + (row + r.value) == out + row + r.value;
      assert [] + r.value == r.value;
    }
  }

  function Prepend(out: seq<VPNClient>, r: Option<seq<VPNClient>>): Option<seq<VPNClient>> {
    match r case None => None case Some(tail) => Some(out + tail)
  }

  method ParseStatusFile(r: Reader) returns (res: Option<seq<VPNClient>>)
    modifies r
    ensures res == ParseStatus(old(r.rest))
  {
    var out: seq<VPNClient> := [];
    PrependMore([], [], ParseStatus(r.rest));
    while true
      invariant ParseStatus(old(r.rest)) == Prepend(out, ParseStatus(r.rest))
      decreases |r.rest|
    {
      var raw := r.ReadString();
      if raw.None? {
        return None;
      }
      var line := TrimCRLF(raw.value);
      if line == "END" {
        PrependMore(out, [], None);
        return Some(out);
      }
      PrependMore(out, OptSeq(ParseRow(line)), ParseStatus(r.rest));
      if ROW_PREFIX <= line {
        var f := Split(line, '\t');
        if |f| < MIN_FIELDS {
          continue;
        }
        var recv, sent, since := ParseUint(f[5]).0, ParseUint(f[6]).0, ParseInt(f[8]);
        var vc := VPNClient(f[10], f[1], f[2], f[3], recv, sent, since, "");
        if |f| >= 13 {
          vc := vc.(cipher := f[12]);
        }
        out := out + [vc];
      }
    }
  }

  // ----- exactly when it succeeds -----

  /** The complete lines of a text, trimmed; a last line without newline is not one. */
  function CompleteLines(s: string): seq<string>
    decreases |s|
  {
    match NextLine(s)
    case None => []
    case Some((raw, rest)) => [TrimCRLF(raw)] + CompleteLines(rest)
  }

  function Rows(lines: seq<string>): seq<VPNClient> {
    if lines == [] then [] else OptSeq(ParseRow(lines[0])) + Rows(lines[1..])
  }

  predicate FirstEnd(lines: seq<string>, n: nat)
    requires n < |lines|
  {
    lines[n] == "END" && "END" !in lines[..n]
  }

  /** Parsing succeeds exactly when some complete line is END, and then yields the rows of the lines before
      the first one: nothing after it matters. */
  lemma {:induction false} SucceedsIffEnd(s: string)
    ensures ParseStatus(s).None? <==> "END" !in CompleteLines(s)
    ensures forall n :: 0 <= n < |CompleteLines(s)| && FirstEnd(CompleteLines(s), n) ==>
      ParseStatus(s) == Some(Rows(CompleteLines(s)[..n]))
    decreases |s|
  {
    var ls := CompleteLines(s);
    match NextLine(s)
    case None =>
    case Some((raw, rest)) =>
      SucceedsIffEnd(rest);
      assert ls[1..] == CompleteLines(rest);
      forall n | 0 <= n < |ls| && FirstEnd(ls, n) ensures ParseStatus(s) == Some(Rows(ls[..n])) {
        if n > 0 {
          assert ls[0] in ls[..n];
          assert ls[..n][1..] == CompleteLines(rest)[..n - 1];
          assert forall x :: x in CompleteLines(rest)[..n - 1] ==> x in ls[..n];
        }
      }
  }

  // ----- rendered documents -----

  /** A document line: a session row with the columns that the parser skips, and either no column after the
      twelfth or the cipher and perhaps more; a row that is too short; or anything else. */
  datatype DocLine =
    | Row(c: VPNClient, virt6: string, sinceText: string, user: string, pid: string, more: Option<seq<string>>)
    | ShortRow(columns: seq<string>)
    | Other(text: string)

  predicate Renderable(l: DocLine) { l.Row? ==> l.c.connectedSince.Some? }

  function RowFields(l: DocLine): (fs: seq<string>)
    requires !l.Other? && Renderable(l)
    ensures l.Row? ==> |fs| >= 12
  {
    match l
    case Row(c, virt6, sinceText, user, pid, more) =>
      ["CLIENT_LIST", c.cn, c.realAddress, c.virtualAddress, virt6, Decimal(c.bytesRecv), Decimal(c.bytesSent),
       sinceText, SignedDecimal(c.connectedSince.value), user, c.cid, pid]
      + (match more case None => [] case Some(columns) => [c.cipher] + columns)
    case ShortRow(columns) => ["CLIENT_LIST"] + columns
  }

  predicate FieldOk(f: string) { '\t' !in f && '\n' !in f }

  ghost predicate DocLineOk(l: DocLine) {
    match l
    case Row(c, virt6, sinceText, user, pid, more) =>
      && FieldOk(c.cid) && FieldOk(c.cn) && FieldOk(c.realAddress) && FieldOk(c.virtualAddress) && FieldOk(c.cipher)
      && FieldOk(virt6) && FieldOk(sinceText) && FieldOk(user) && FieldOk(pid)
      && (match more
          case None => c.cipher == "" && Clean(pid)
          case Some(columns) => ColumnsOk([c.cipher] + columns))
      && c.bytesRecv <= MAX_UINT64 && c.bytesSent <= MAX_UINT64
      && c.connectedSince.Some? && MIN_INT64 <= c.connectedSince.value <= MAX_INT64
    case ShortRow(columns) => 1 <= |columns| <= 10 && ColumnsOk(columns)
    case Other(text) => Clean(text) && text != "END" && !(ROW_PREFIX <= text)
  }

  predicate ColumnsOk(columns: seq<string>)
    requires columns != []
  {
    Clean(columns[|columns| - 1]) && forall i :: 0 <= i < |columns| ==> FieldOk(columns[i])
  }

  function LineText(l: DocLine): string
    requires Renderable(l)
  {
    match l case Other(text) => text case _ => Join(RowFields(l), '\t')
  }

  ghost predicate DocOk(doc: seq<DocLine>) { forall i :: 0 <= i < |doc| ==> DocLineOk(doc[i]) }

  ghost function Render(doc: seq<DocLine>, eol: string): string
    requires DocOk(doc)
  {
    if doc == [] then "END" + eol else LineText(doc[0]) + eol + Render(doc[1..], eol)
  }

  function Sessions(doc: seq<DocLine>): seq<VPNClient> {
    if doc == [] then [] else (if doc[0].Row? then [doc[0].c] else []) + Sessions(doc[1..])
  }

  lemma NumbersAreFields(n: int)
    ensures '\t' !in SignedDecimal(n) && '\n' !in SignedDecimal(n)
  {
  }

  lemma RowFieldsOk(l: DocLine)
    requires DocLineOk(l) && !l.Other?
    ensures |RowFields(l)| > 1 && ColumnsOk(RowFields(l))
  {
    match l
    case Row(c, _, _, _, _, more) =>
      NumbersAreFields(c.connectedSince.value);
      NumbersAreFields(c.bytesRecv);
      NumbersAreFields(c.bytesSent);
      if more.Some? {
        ColumnsOkConcat(RowFields(l)[..12], [c.cipher] + more.value);
        assert RowFields(l) == RowFields(l)[..12] + ([c.cipher] + more.value);
      }
    case ShortRow(columns) => ColumnsOkConcat(["CLIENT_LIST"], columns);
  }

  lemma ColumnsOkConcat(a: seq<string>, b: seq<string>)
    requires (forall i :: 0 <= i < |a| ==> FieldOk(a[i])) && b != [] && ColumnsOk(b)
    ensures ColumnsOk(a + b)
  {
  }

  /** A joined row is a clean line: it has no newline, and ends like its last column or in a tab. */
  lemma JoinedIsClean(fs: seq<string>)
    requires |fs| > 1 && ColumnsOk(fs)
    ensures Clean(Join(fs, '\t'))
  {
    JoinAvoids(fs, '\t', '\n');
    JoinEndsLike(fs, '\t');
    var text, last := Join(fs, '\t'), fs[|fs| - 1];
    if last != [] {
      assert text[|text| - |last|..][|last| - 1] == last[|last| - 1];
    } else {
      assert text[|text| - 1..][0] == '\t';
    }
  }

  lemma RowTextIsLine(l: DocLine)
    requires DocLineOk(l) && !l.Other?
    ensures Clean(LineText(l)) && Split(LineText(l), '\t') == RowFields(l) && ROW_PREFIX <= LineText(l)
  {
    var fs := RowFields(l);
    RowFieldsOk(l);
    SplitJoin(fs, '\t');
    JoinedIsClean(fs);
    assert Join(fs, '\t') == "CLIENT_LIST" + ['\t'] + Join(fs[1..], '\t');
  }

  lemma LineParses(l: DocLine)
    requires DocLineOk(l)
    ensures Clean(LineText(l)) && LineText(l) != "END"
    ensures ParseRow(LineText(l)) == if l.Row? then Some(l.c) else None
  {
    if !l.Other? {
      RowTextIsLine(l);
    }
    if l.Row? {
      DecimalRoundTrip(l.c.bytesRecv);
      DecimalRoundTrip(l.c.bytesSent);
      TimeRoundTrip(l.c.connectedSince.value);
    }
  }

  /** Round trip: parsing a rendered document, whatever follows it, returns its sessions, counters and all. */
  lemma {:induction false} RenderedParsesBack(doc: seq<DocLine>, eol: string, more: string)
    requires DocOk(doc) && LineEnd(eol)
    ensures ParseStatus(Render(doc, eol) + more) == Some(Sessions(doc))
  {
    var s := Render(doc, eol) + more;
    if doc == [] {
      ReadLine("END", eol, more);
      TrimLine("END", eol);
    } else {
      var line, rest := LineText(doc[0]), Render(doc[1..], eol) + more;
      LineParses(doc[0]);
      assert s == line + eol + rest;
      ReadLine(line, eol, rest);
      TrimLine(line, eol);
      RenderedParsesBack(doc[1..], eol, more);
    }
  }

  /** A torn read never passes for a shorter list: every strict prefix of a rendered document, cut at any
      byte, is an error. */
  lemma {:induction false} TornReadFails(doc: seq<DocLine>, eol: string, n: nat)
    requires DocOk(doc) && LineEnd(eol) && n < |Render(doc, eol)|
    ensures ParseStatus(Render(doc, eol)[..n]).None?
  {
    var line := if doc == [] then "END" else LineText(doc[0]);
    if doc != [] {
      LineParses(doc[0]);
    }
    var s, head := Render(doc, eol), line + eol;
    if n < |head| {
      assert s[..n] == head[..n];
      assert '\n' !in head[..n];
    } else {
      var rest := Render(doc[1..], eol);
      var m := n - |head|;
      assert s[..n] == head + rest[..m];
      ReadLine(line, eol, rest[..m]);
      TrimLine(line, eol);
      TornReadFails(doc[1..], eol, m);
    }
  }

  // ----- Kill -----

  function Of(live: seq<VPNClient>, cn: string): seq<VPNClient> {
    if live == [] then [] else (if live[0].cn == cn then [live[0]] else []) + Of(live[1..], cn)
  }

  function KillCommand(c: VPNClient, msg: string): string { "client-kill " + c.cid + " " + msg }

  /** The command that is sent, as its receiver reads it. */
  lemma KillNamesSession(c: VPNClient, msg: string)
    requires ' ' !in c.cid && msg in {"HALT", "RESTART"}
    ensures Split(KillCommand(c, msg), ' ') == ["client-kill", c.cid, msg]
  {
    ThreeWords("client-kill", c.cid, msg);
    assert KillCommand(c, msg) == "client-kill" + " " + c.cid + " " + msg;
  }

  function KillCommands(cs: seq<VPNClient>, msg: string): seq<string> {
    seq(|cs|, i requires 0 <= i < |cs| => KillCommand(cs[i], msg))
  }

  class Mgmt {
    var sent: seq<string>

    constructor ()
      ensures sent == []
    {
      sent := [];
    }

    /** One command's round trip; ok is its outcome. */
    method Simple(cmd: string, ok: bool) returns (err: bool)
      modifies this
      ensures sent == old(sent) + [cmd] && err == !ok
    {
      sent := sent + [cmd];
      err := !ok;
    }

    /** status is what "status 3" returned; ok(i) is the outcome of the i-th client-kill. */
    method Kill(cn: string, msg: string, status: Option<seq<VPNClient>>, ok: nat -> bool) returns (n: nat, err: bool)
      modifies this
      ensures msg !in {"HALT", "RESTART"} || status.None? ==> n == 0 && err && sent == old(sent)
      ensures msg in {"HALT", "RESTART"} && status.Some? ==>
        var targets := Of(status.value, cn);
        && n <= |targets|
        && (forall i :: 0 <= i < n ==> ok(i))
        && (if err then n < |targets| && !ok(n) && sent == old(sent) + KillCommands(targets[..n + 1], msg)
            else n == |targets| && sent == old(sent) + KillCommands(targets, msg))
    {
      n := 0;
      if msg != "HALT" && msg != "RESTART" {
        return 0, true;
      }
      if status.None? {
        return 0, true;
      }
      n, err := KillAll(cn, msg, status.value, ok);
    }

    method KillAll(cn: string, msg: string, live: seq<VPNClient>, ok: nat -> bool) returns (n: nat, err: bool)
      modifies this
      ensures var targets := Of(live, cn);
        && n <= |targets|
        && (forall i :: 0 <= i < n ==> ok(i))
        && (if err then n < |targets| && !ok(n) && sent == old(sent) + KillCommands(targets[..n + 1], msg)
            else n == |targets| && sent == old(sent) + KillCommands(targets, msg))
    {
      n := 0;
      ghost var reached: seq<VPNClient> := [];
      for i := 0 to |live|
        invariant n == |reached|
        invariant Of(live, cn) == reached + Of(live[i..], cn)
        invariant forall j :: 0 <= j < n ==> ok(j)
        invariant sent == old(sent) + KillCommands(reached, msg)
      {
        OfRest(live, i, cn, reached);
        if live[i].cn == cn {
          ghost var next := reached + [live[i]];
          KillCommandsSnoc(old(sent), reached, live[i], msg);
          var e := Simple(KillCommand(live[i], msg), ok(n));
          if e {
            Taken(next, Of(live[i + 1..], cn));
            return n, true;
          }
          reached := next;
          n := n + 1;
        }
      }
      AllReached(live, cn, reached);
      return n, false;
    }
  }

  lemma KillCommandsSnoc(before: seq<string>, cs: seq<VPNClient>, c: VPNClient, msg: string)
    ensures before + KillCommands(cs + [c], msg) == before + KillCommands(cs, msg) + [KillCommand(c, msg)]
  {
  }

  lemma Taken<T>(a: seq<T>, b: seq<T>)
    ensures (a + b)[..|a|] == a
  {
  }

  lemma AllReached(live: seq<VPNClient>, cn: string, reached: seq<VPNClient>)
    ensures reached + Of(live[|live|..], cn) == reached
  {
  }

  /** One more session looked at. */
  lemma OfRest(live: seq<VPNClient>, i: nat, cn: string, reached: seq<VPNClient>)
    requires i < |live|
    ensures reached + Of(live[i..], cn)
      == (if live[i].cn == cn then reached + [live[i]] else reached) + Of(live[i + 1..], cn)
  {
    Suffix(live, i);
    Associate(reached, [live[i]], Of(live[i + 1..], cn));
    assert [] + Of(live[i + 1..], cn) == Of(live[i + 1..], cn);
  }

  /** Of works session by session, and so keeps their order. */
  lemma {:induction false} OfInOrder(a: seq<VPNClient>, b: seq<VPNClient>, cn: string)
    ensures Of(a + b, cn) == Of(a, cn) + Of(b, cn)
    ensures |a| == 1 ==> Of(a, cn) == if a[0].cn == cn then a else []
  {
    if a == [] {
      assert a + b == b;
    } else {
      var head := if a[0].cn == cn then [a[0]] else [];
      assert (a + b)[1..] == a[1..] + b;
      OfInOrder(a[1..], b, cn);
      Associate(head, Of(a[1..], cn), Of(b, cn));
    }
  }

  /** Of keeps exactly the sessions of one client, each as often as it is listed. */
  lemma {:induction false} OfExact(live: seq<VPNClient>, cn: string)
    ensures forall c :: c in Of(live, cn) <==> c in live && c.cn == cn
    ensures multiset(Of(live, cn)) <= multiset(live)
    ensures |Of(live, cn)| + |OfOthers(live, cn)| == |live|
  {
    if live != [] {
      OfExact(live[1..], cn);
      assert live == [live[0]] + live[1..];
    }
  }

  function OfOthers(live: seq<VPNClient>, cn: string): (r: seq<VPNClient>)
    ensures forall c :: c in r ==> c.cn != cn
  {
    if live == [] then [] else (if live[0].cn == cn then [] else [live[0]]) + OfOthers(live[1..], cn)
  }
}
