/**
 The management connection's reader of internal/controller/mgmt.go: one stream
 carries command replies and client notices, and readLoop must take them apart.
 What the reader does is recorded, in order, as effects.
 */
module Management {
  import opened Wrappers
  import opened Lines
  import opened Seqs

  type Env = map<string, string>

  datatype Effect =
    | Handed(raw: string)                                        // to the waiting command
    | Wrote(text: string)                                        // to the connection
    | Established(cid: string, cn: string, ip: string, env: Env) // OnClientEstablished
    | Disconnected(cid: string, env: Env)                        // OnClientDisconnect

  /** Whether the connection is held and which callbacks are set. */
  datatype Setup = Setup(connected: bool, onEstablished: bool, onDisconnect: bool)

  const ENV_PREFIX := ">CLIENT:ENV,"
  const CONNECT_PREFIX := ">CLIENT:CONNECT,"
  const REAUTH_PREFIX := ">CLIENT:REAUTH,"
  const ESTABLISHED_PREFIX := ">CLIENT:ESTABLISHED,"
  const DISCONNECT_PREFIX := ">CLIENT:DISCONNECT,"

  function Lookup(env: Env, name: string): string { if name in env then env[name] else "" }

  // ----- what the reader does -----

  /** readClientEnv: the environment, or an error, and the unread rest. */
  function ReadEnv(s: string, env: Env): (r: (Option<Env>, string))
    ensures |r.1| <= |s|
    decreases |s|
  {
    match NextLine(s)
    case None => (None, "")
    case Some((raw, rest)) =>
      var line := TrimCRLF(raw);
      if !(ENV_PREFIX <= line) then (None, rest)
      else
        var assignment := line[|ENV_PREFIX|..];
        if assignment == "END" then (Some(env), rest)
        else
          var (name, val, _) := Cut(assignment, '=');
          ReadEnv(rest, env[name := val])
  }

  /** strings.SplitN(header, ",", 3) when it yields three parts: the last two. */
  function CidKid(header: string): Option<(string, string)> {
    var (_, afterVerb, hasCid) := Cut(header, ',');
    var (cid, kid, hasKid) := Cut(afterVerb, ',');
    if hasCid && hasKid then Some((cid, kid)) else None
  }

  function Cid(header: string): Option<string> {
    var (_, cid, found) := Cut(header, ',');
    if found then Some(cid) else None
  }

  function Approval(cid: string, kid: string): string { "client-auth-nt " + cid + " " + kid + "\n" }

  function OnConnect(u: Setup, header: string, s: string): (r: (seq<Effect>, string))
    ensures |r.1| <= |s|
  {
    match CidKid(header)
    case None => ([], s)
    case Some((cid, kid)) =>
      var (env, rest) := ReadEnv(s, map[]);
      (if env.Some? && u.connected then [Wrote(Approval(cid, kid))] else [], rest)
  }

  function OnEstablished(u: Setup, header: string, s: string): (r: (seq<Effect>, string))
    ensures |r.1| <= |s|
  {
    match Cid(header)
    case None => ([], s)
    case Some(cid) =>
      var (env, rest) := ReadEnv(s, map[]);
      (if env.Some? && u.onEstablished then
         [Established(cid, Lookup(env.value, "common_name"), Lookup(env.value, "ifconfig_pool_remote_ip"), env.value)]
       else [], rest)
  }

  function OnDisconnect(u: Setup, header: string, s: string): (r: (seq<Effect>, string))
    ensures |r.1| <= |s|
  {
    match Cid(header)
    case None => ([], s)
    case Some(cid) =>
      var (env, rest) := ReadEnv(s, map[]);
      (if env.Some? && u.onDisconnect then [Disconnected(cid, env.value)] else [], rest)
  }

  /** One round of readLoop on the line raw, with s still unread. */
  function Dispatch(u: Setup, raw: string, s: string): (r: (seq<Effect>, string))
    ensures |r.1| <= |s|
  {
    var line := TrimCRLF(raw);
    if CONNECT_PREFIX <= line || REAUTH_PREFIX <= line then OnConnect(u, line, s)
    else if ESTABLISHED_PREFIX <= line then OnEstablished(u, line, s)
    else if DISCONNECT_PREFIX <= line then OnDisconnect(u, line, s)
    else if ">" <= line then ([], s)
    else ([Handed(raw)], s)
  }

  function Demux(u: Setup, s: string): seq<Effect>
    decreases |s|
  {
    match NextLine(s)
    case None => []
    case Some((raw, rest)) =>
      var (effects, unread) := Dispatch(u, raw, rest);
      effects + Demux(u, unread)
  }

  // ----- the reader's own form -----

  class Client {
    var connected: bool
    var effects: seq<Effect>
    const onEstablished: bool
    const onDisconnect: bool

    constructor (onEstablished: bool, onDisconnect: bool)
      ensures this.onEstablished == onEstablished && this.onDisconnect == onDisconnect
      ensures connected && effects == []
    {
      this.onEstablished, this.onDisconnect := onEstablished, onDisconnect;
      connected, effects := true, [];
    }

    function View(): Setup
      reads this
    {
      Setup(connected, onEstablished, onDisconnect)
    }

    method ReadClientEnv(r: Reader) returns (env: Option<Env>)
      modifies r
      ensures (env, r.rest) == ReadEnv(old(r.rest), map[])
    {
      var m: Env := map[];
      while true
        invariant ReadEnv(old(r.rest), map[]) == ReadEnv(r.rest, m)
        decreases |r.rest|
      {
        var raw := r.ReadString();
        if raw.None? {
          return None;
        }
        var line := TrimCRLF(raw.value);
        if !(ENV_PREFIX <= line) {
          return None;
        }
        var rest := line[|ENV_PREFIX|..];
        if rest == "END" {
          return Some(m);
        }
        var (name, val, _) := Cut(rest, '=');
        m := m[name := val];
      }
    }

    /** Refused while no connection is held. */
    method Write(text: string) returns (ok: bool)
      modifies this`effects
      ensures ok == connected
      ensures effects == if connected then old(effects) + [Wrote(text)] else old(effects)
    {
      if !connected {
        return false;
      }
      effects := effects + [Wrote(text)];
      return true;
    }

    method HandleConnect(r: Reader, header: string)
      modifies this`effects, r
      ensures (effects, r.rest) ==
        var (es, rest) := OnConnect(old(View()), header, old(r.rest)); (old(effects) + es, rest)
    {
      assert effects + [] == effects;
      var parts := CidKid(header);
      if parts.None? {
        return;
      }
      var env := ReadClientEnv(r);
      if env.None? {
        return;
      }
      var _ := Write(Approval(parts.value.0, parts.value.1));
    }

    method HandleEstablished(r: Reader, header: string)
      modifies this`effects, r
      ensures (effects, r.rest) ==
        var (es, rest) := OnEstablished(old(View()), header, old(r.rest)); (old(effects) + es, rest)
    {
      assert effects + [] == effects;
      var cid := Cid(header);
      if cid.None? {
        return;
      }
      var env := ReadClientEnv(r);
      if env.None? {
        return;
      }
      if onEstablished {
        effects := effects + [Established(cid.value, Lookup(env.value, "common_name"),
                                          Lookup(env.value, "ifconfig_pool_remote_ip"), env.value)];
      }
    }

    method HandleDisconnect(r: Reader, header: string)
      modifies this`effects, r
      ensures (effects, r.rest) ==
        var (es, rest) := OnDisconnect(old(View()), header, old(r.rest)); (old(effects) + es, rest)
    {
      assert effects + [] == effects;
      var cid := Cid(header);
      if cid.None? {
        return;
      }
      var env := ReadClientEnv(r);
      if env.None? {
        return;
      }
      if onDisconnect {
        effects := effects + [Disconnected(cid.value, env.value)];
      }
    }

    method OnLine(r: Reader, raw: string)
      modifies this`effects, r
      ensures (effects, r.rest) ==
        var (es, rest) := Dispatch(old(View()), raw, old(r.rest)); (old(effects) + es, rest)
    {
      assert effects + [] == effects;
      var line := TrimCRLF(raw);
      if CONNECT_PREFIX <= line || REAUTH_PREFIX <= line {
        HandleConnect(r, line);
      } else if ESTABLISHED_PREFIX <= line {
        HandleEstablished(r, line);
      } else if DISCONNECT_PREFIX <= line {
        HandleDisconnect(r, line);
      } else if ">" <= line {
      } else {
        effects := effects + [Handed(raw)];
      }
    }

    method ReadLoop(r: Reader)
      modifies this, r
      ensures effects == old(effects) + Demux(old(View()), old(r.rest))
      ensures !connected
    {
      while true
        invariant View() == old(View())
        invariant old(effects) + Demux(old(View()), old(r.rest)) == effects + Demux(View(), r.rest)
        decreases |r.rest|
      {
        ghost var unread, before := r.rest, effects;
        var raw := r.ReadString();
        if raw.None? {
          connected := false;
          return;
        }
        ghost var s := r.rest;
        OnLine(r, raw.value);
        DemuxStep(View(), before, unread, raw.value, s);
      }
    }
  }

  lemma DemuxStep(u: Setup, before: seq<Effect>, unread: string, raw: string, s: string)
    requires NextLine(unread) == Some((raw, s))
    ensures var (es, rest) := Dispatch(u, raw, s);
      before + Demux(u, unread) == before + es + Demux(u, rest)
  {
  }

  // ----- well-formed streams -----

  datatype Verb = CONNECT | REAUTH

  datatype Block =
    | Reply(line: string)
    | Notice(line: string)
    | Connect(verb: Verb, cid: string, kid: string, env: seq<(string, string)>)
    | Establish(cid: string, env: seq<(string, string)>)
    | Disconnect(cid: string, env: seq<(string, string)>)

  predicate EnvOk(env: seq<(string, string)>) {
    forall i :: 0 <= i < |env| ==> '=' !in env[i].0 && '\n' !in env[i].0 && Clean(env[i].1)
  }

  predicate BlockOk(b: Block) {
    match b
    case Reply(line) => '\n' !in line && !(">" <= line)
    case Notice(line) =>
      '\n' !in line && ">" <= line
      && !(CONNECT_PREFIX <= line) && !(REAUTH_PREFIX <= line)
      && !(ESTABLISHED_PREFIX <= line) && !(DISCONNECT_PREFIX <= line)
    case Connect(_, cid, kid, env) => ',' !in cid && '\n' !in cid && Clean(kid) && EnvOk(env)
    case Establish(cid, env) => Clean(cid) && EnvOk(env)
    case Disconnect(cid, env) => Clean(cid) && EnvOk(env)
  }

  function EnvText(name: string, val: string): string { ">CLIENT:ENV," + (name + "=" + val) }

  function RenderEnv(env: seq<(string, string)>, eol: string): string {
    if env == [] then ">CLIENT:ENV,END" + eol
    else EnvText(env[0].0, env[0].1) + eol + RenderEnv(env[1..], eol)
  }

  function Header(b: Block): string {
    match b
    case Reply(line) => line
    case Notice(line) => line
    case Connect(verb, cid, kid, _) =>
      (if verb.CONNECT? then ">CLIENT:CONNECT," else ">CLIENT:REAUTH,") + cid + "," + kid
    case Establish(cid, _) => ">CLIENT:ESTABLISHED," + cid
    case Disconnect(cid, _) => ">CLIENT:DISCONNECT," + cid
  }

  function Body(b: Block, eol: string): string {
    match b
    case Reply(_) => ""
    case Notice(_) => ""
    case Connect(_, _, _, env) => RenderEnv(env, eol)
    case Establish(_, env) => RenderEnv(env, eol)
    case Disconnect(_, env) => RenderEnv(env, eol)
  }

  function RenderAll(bs: seq<Block>, eol: string): string {
    if bs == [] then "" else Header(bs[0]) + eol + Body(bs[0], eol) + RenderAll(bs[1..], eol)
  }

  /** A block's environment: of a name given twice, the later value. */
  function EnvOf(env: seq<(string, string)>, m: Env): Env {
    if env == [] then m else EnvOf(env[1..], m[env[0].0 := env[0].1])
  }

  /** The value of a name in an environment block; empty if it is not there. */
  function ValueOf(env: seq<(string, string)>, name: string): string {
    if env == [] then ""
    else if env[|env| - 1].0 == name then env[|env| - 1].1
    else ValueOf(env[..|env| - 1], name)
  }

  lemma {:induction false} LookupIsValue(env: seq<(string, string)>, m: Env, name: string)
    ensures Lookup(EnvOf(env, m), name) ==
      if exists i :: 0 <= i < |env| && env[i].0 == name then ValueOf(env, name) else Lookup(m, name)
    decreases |env|
  {
    if env != [] {
      var init, last := env[..|env| - 1], env[|env| - 1];
      EnvOfSnoc(init, last, m);
      assert init + [last] == env;
      LookupIsValue(init, m, name);
      if i :| 0 <= i < |init| && init[i].0 == name {
        assert env[i].0 == name;
      }
    }
  }

  lemma {:induction false} EnvOfSnoc(env: seq<(string, string)>, last: (string, string), m: Env)
    ensures EnvOf(env + [last], m) == EnvOf(env, m)[last.0 := last.1]
    decreases |env|
  {
    if env == [] {
      assert [last][1..] == [];
    } else {
      assert (env + [last])[1..] == env[1..] + [last];
      EnvOfSnoc(env[1..], last, m[env[0].0 := env[0].1]);
    }
  }

  /** What each block must cause, and nothing else. */
  function EffectsOf(u: Setup, b: Block, eol: string): seq<Effect> {
    match b
    case Reply(line) => [Handed(line + eol)]
    case Notice(_) => []
    case Connect(_, cid, kid, _) => if u.connected then [Wrote("client-auth-nt " + cid + " " + kid + "\n")] else []
    case Establish(cid, env) =>
      if !u.onEstablished then []
      else [Established(cid, ValueOf(env, "common_name"), ValueOf(env, "ifconfig_pool_remote_ip"), EnvOf(env, map[]))]
    case Disconnect(cid, env) => if u.onDisconnect then [Disconnected(cid, EnvOf(env, map[]))] else []
  }

  function AllEffects(u: Setup, bs: seq<Block>, eol: string): seq<Effect> {
    if bs == [] then [] else EffectsOf(u, bs[0], eol) + AllEffects(u, bs[1..], eol)
  }

  lemma {:induction false} EnvReadsBack(env: seq<(string, string)>, eol: string, rest: string, m: Env)
    requires EnvOk(env) && LineEnd(eol)
    ensures ReadEnv(RenderEnv(env, eol) + rest, m) == (Some(EnvOf(env, m)), rest)
    decreases |env|
  {
    if env == [] {
      var line := ENV_PREFIX + "END";
      assert RenderEnv(env, eol) + rest == line + eol + rest;
      ReadLine(line, eol, rest);
      TrimLine(line, eol);
      assert line[|ENV_PREFIX|..] == "END";
    } else {
      var line, more := EnvText(env[0].0, env[0].1), RenderEnv(env[1..], eol) + rest;
      EnvLine(env[0].0, env[0].1);
      Associate(line + eol, RenderEnv(env[1..], eol), rest);
      ReadLine(line, eol, more);
      TrimLine(line, eol);
      EnvReadsBack(env[1..], eol, rest, m[env[0].0 := env[0].1]);
    }
  }

  lemma EnvLine(name: string, val: string)
    requires '=' !in name && '\n' !in name && Clean(val)
    ensures Clean(EnvText(name, val))
    ensures EnvText(name, val)[|ENV_PREFIX|..] == name + "=" + val && name + "=" + val != "END"
    ensures Cut(name + "=" + val, '=') == (name, val, true)
  {
    CutAt(name, '=', val);
    assert '=' in name + "=" + val by {
      assert (name + "=" + val)[|name|] == '=';
    }
    assert '=' !in "END";
    var line := ENV_PREFIX + (name + "=" + val);
    if val != [] {
      assert line[|line| - 1] == val[|val| - 1];
    } else {
      assert line[|line| - 1] == '=';
    }
  }

  lemma HeaderIsLine(b: Block)
    requires BlockOk(b) && !b.Reply? && !b.Notice?
    ensures Clean(Header(b))
  {
    var h := Header(b);
    match b
    case Connect(_, _, kid, _) => assert h[|h| - 1] == if kid == [] then ',' else kid[|kid| - 1];
    case Establish(cid, _) => assert h[|h| - 1] == if cid == [] then ',' else cid[|cid| - 1];
    case Disconnect(cid, _) => assert h[|h| - 1] == if cid == [] then ',' else cid[|cid| - 1];
  }

  lemma ConnectHeader(b: Block)
    requires BlockOk(b) && b.Connect?
    ensures CidKid(Header(b)) == Some((b.cid, b.kid))
    ensures CONNECT_PREFIX <= Header(b) || REAUTH_PREFIX <= Header(b)
  {
    var verb := if b.verb.CONNECT? then ">CLIENT:CONNECT" else ">CLIENT:REAUTH";
    assert Header(b) == verb + [','] + (b.cid + [','] + b.kid);
    CutAt(verb, ',', b.cid + [','] + b.kid);
    CutAt(b.cid, ',', b.kid);
  }

  lemma EstablishHeader(b: Block)
    requires b.Establish?
    ensures Cid(Header(b)) == Some(b.cid)
    ensures !(CONNECT_PREFIX <= Header(b)) && !(REAUTH_PREFIX <= Header(b)) && ESTABLISHED_PREFIX <= Header(b)
  {
    assert Header(b) == ">CLIENT:ESTABLISHED" + [','] + b.cid;
    CutAt(">CLIENT:ESTABLISHED", ',', b.cid);
    assert Header(b)[8] == 'E';
  }

  lemma DisconnectHeader(b: Block)
    requires b.Disconnect?
    ensures Cid(Header(b)) == Some(b.cid)
    ensures !(CONNECT_PREFIX <= Header(b)) && !(REAUTH_PREFIX <= Header(b)) && !(ESTABLISHED_PREFIX <= Header(b))
    ensures DISCONNECT_PREFIX <= Header(b)
  {
    assert Header(b) == ">CLIENT:DISCONNECT" + [','] + b.cid;
    CutAt(">CLIENT:DISCONNECT", ',', b.cid);
    assert Header(b)[8] == 'D';
  }

  /** A line that starts with none of the prefixes still does not once its end is trimmed. */
  lemma PlainLine(line: string, eol: string)
    requires LineEnd(eol)
    ensures var t := TrimCRLF(line + eol);
      && t <= line
      && (">" <= t <==> ">" <= line)
      && |t| <= |line|
  {
    var t := TrimCRLF(line + eol);
    TrimWithin(line, eol);
    TrimKeepsPrefix(line + eol);
    assert t <= line by {
      assert t == (line + eol)[..|t|] == line[..|t|];
    }
    assert line != [] ==> (line + eol)[0] == line[0];
  }

  lemma TrimWithin(line: string, eol: string)
    requires LineEnd(eol)
    ensures |TrimCRLF(line + eol)| <= |line|
  {
    var n := |line|;
    TrimKeepsPrefix(line);
    if eol == "\n" {
      assert (line + eol)[..n] == line;
    } else {
      assert (line + eol)[..n + 1] == line + "\r";
      assert (line + "\r")[..n] == line;
      assert TrimCRLF(line + eol) == TrimCRLF(line + "\r");
    }
  }

  lemma ReplyDispatches(u: Setup, b: Block, eol: string, rest: string)
    requires BlockOk(b) && LineEnd(eol) && b.Reply?
    ensures Dispatch(u, b.line + eol, rest) == ([Handed(b.line + eol)], rest)
  {
    PlainLine(b.line, eol);
    NotANotice(TrimCRLF(b.line + eol));
  }

  lemma NotANotice(t: string)
    requires !(">" <= t)
    ensures !(CONNECT_PREFIX <= t) && !(REAUTH_PREFIX <= t) && !(ESTABLISHED_PREFIX <= t) && !(DISCONNECT_PREFIX <= t)
  {
    assert t == [] || t[0] != '>';
  }

  lemma NoticeDispatches(u: Setup, b: Block, eol: string, rest: string)
    requires BlockOk(b) && LineEnd(eol) && b.Notice?
    ensures Dispatch(u, b.line + eol, rest) == ([], rest)
  {
    PlainLine(b.line, eol);
  }

  lemma ConnectDispatches(u: Setup, b: Block, eol: string, rest: string)
    requires BlockOk(b) && LineEnd(eol) && b.Connect?
    ensures Dispatch(u, Header(b) + eol, RenderEnv(b.env, eol) + rest) == (EffectsOf(u, b, eol), rest)
  {
    HeaderIsLine(b);
    TrimLine(Header(b), eol);
    ConnectHeader(b);
    EnvReadsBack(b.env, eol, rest, map[]);
  }

  lemma EstablishDispatches(u: Setup, b: Block, eol: string, rest: string)
    requires BlockOk(b) && LineEnd(eol) && b.Establish?
    ensures Dispatch(u, Header(b) + eol, RenderEnv(b.env, eol) + rest) == (EffectsOf(u, b, eol), rest)
  {
    HeaderIsLine(b);
    TrimLine(Header(b), eol);
    EstablishHeader(b);
    EnvReadsBack(b.env, eol, rest, map[]);
    EnvValue(b.env, "common_name");
    EnvValue(b.env, "ifconfig_pool_remote_ip");
  }

  lemma EnvValue(env: seq<(string, string)>, name: string)
    ensures Lookup(EnvOf(env, map[]), name) == ValueOf(env, name)
  {
    LookupIsValue(env, map[], name);
    if !exists i :: 0 <= i < |env| && env[i].0 == name {
      NoValue(env, name);
    }
  }

  lemma {:induction false} NoValue(env: seq<(string, string)>, name: string)
    requires forall i :: 0 <= i < |env| ==> env[i].0 != name
    ensures ValueOf(env, name) == ""
  {
    if env != [] {
      NoValue(env[..|env| - 1], name);
    }
  }

  lemma DisconnectDispatches(u: Setup, b: Block, eol: string, rest: string)
    requires BlockOk(b) && LineEnd(eol) && b.Disconnect?
    ensures Dispatch(u, Header(b) + eol, RenderEnv(b.env, eol) + rest) == (EffectsOf(u, b, eol), rest)
  {
    HeaderIsLine(b);
    TrimLine(Header(b), eol);
    DisconnectHeader(b);
    EnvReadsBack(b.env, eol, rest, map[]);
  }

  lemma BlockDispatches(u: Setup, b: Block, eol: string, rest: string)
    requires BlockOk(b) && LineEnd(eol)
    ensures Dispatch(u, Header(b) + eol, Body(b, eol) + rest) == (EffectsOf(u, b, eol), rest)
  {
    assert "" + rest == rest;
    match b
    case Reply(_) => ReplyDispatches(u, b, eol, rest);
    case Notice(_) => NoticeDispatches(u, b, eol, rest);
    case Connect(_, _, _, _) => ConnectDispatches(u, b, eol, rest);
    case Establish(_, _) => EstablishDispatches(u, b, eol, rest);
    case Disconnect(_, _) => DisconnectDispatches(u, b, eol, rest);
  }

  /** One rendered block at the head of the stream. */
  lemma BlockDemuxes(u: Setup, b: Block, eol: string, rest: string)
    requires BlockOk(b) && LineEnd(eol)
    ensures Demux(u, Header(b) + eol + (Body(b, eol) + rest)) == EffectsOf(u, b, eol) + Demux(u, rest)
  {
    if !b.Reply? && !b.Notice? {
      HeaderIsLine(b);
    }
    ReadLine(Header(b), eol, Body(b, eol) + rest);
    BlockDispatches(u, b, eol, rest);
  }

  lemma RenderAllCons(b: Block, bs: seq<Block>, eol: string, unfinished: string)
    ensures RenderAll([b] + bs, eol) + unfinished
      == Header(b) + eol + (Body(b, eol) + (RenderAll(bs, eol) + unfinished))
  {
    assert ([b] + bs)[1..] == bs;
    Regroup(Header(b) + eol, Body(b, eol), RenderAll(bs, eol), unfinished);
  }

  lemma Regroup(a: string, b: string, c: string, d: string)
    ensures a + b + c + d == a + (b + (c + d))
  {
  }

  /** Demultiplexing is exact. For any interleaving of replies, notices and client blocks, with an unfinished
      line at the end: the command gets precisely the reply lines in order, every CONNECT and REAUTH is
      approved once with its own ids, every callback fires once with its own environment, all in stream order. */
  lemma {:induction false} DemuxIsExact(u: Setup, bs: seq<Block>, eol: string, unfinished: string)
    requires (forall i :: 0 <= i < |bs| ==> BlockOk(bs[i])) && LineEnd(eol) && '\n' !in unfinished
    ensures Demux(u, RenderAll(bs, eol) + unfinished) == AllEffects(u, bs, eol)
    decreases |bs|
  {
    if bs == [] {
      assert RenderAll(bs, eol) + unfinished == unfinished;
    } else {
      DemuxIsExact(u, bs[1..], eol, unfinished);
      BlockDemuxes(u, bs[0], eol, RenderAll(bs[1..], eol) + unfinished);
      RenderAllCons(bs[0], bs[1..], eol, unfinished);
      assert bs == [bs[0]] + bs[1..];
    }
  }

  /** Some lines of an environment block, the END not among them. */
  function EnvLines(env: seq<(string, string)>, eol: string): string {
    if env == [] then "" else EnvText(env[0].0, env[0].1) + eol + EnvLines(env[1..], eol)
  }

  /** A block is broken off by the first line that does not belong to it, or by the end of the stream. That line
      is gone with it, and nothing is done. */
  lemma {:induction false} BrokenEnv(env: seq<(string, string)>, eol: string, line: string, rest: string, m: Env)
    requires EnvOk(env) && LineEnd(eol) && '\n' !in line && !(">CLIENT:ENV," <= line)
    ensures ReadEnv(EnvLines(env, eol) + (line + eol + rest), m) == (None, rest)
    ensures ReadEnv(EnvLines(env, eol) + line, m) == (None, "")
    decreases |env|
  {
    if env == [] {
      assert "" + (line + eol + rest) == line + eol + rest && "" + line == line;
      ReadLine(line, eol, rest);
      PlainLine(line, eol);
    } else {
      BrokenLater(env, eol, line + eol + rest, m);
      BrokenLater(env, eol, line, m);
      BrokenEnv(env[1..], eol, line, rest, m[env[0].0 := env[0].1]);
    }
  }

  lemma BrokenLater(env: seq<(string, string)>, eol: string, more: string, m: Env)
    requires EnvOk(env) && LineEnd(eol) && env != []
    ensures ReadEnv(EnvLines(env, eol) + more, m) == ReadEnv(EnvLines(env[1..], eol) + more, m[env[0].0 := env[0].1])
  {
    var line := EnvText(env[0].0, env[0].1);
    EnvLine(env[0].0, env[0].1);
    Associate(line + eol, EnvLines(env[1..], eol), more);
    ReadLine(line, eol, EnvLines(env[1..], eol) + more);
    TrimLine(line, eol);
  }

  /** So a CONNECT, ESTABLISHED or DISCONNECT whose block is broken off has no effect. */
  lemma BrokenBlockIgnored(u: Setup, b: Block, eol: string, line: string, rest: string)
    requires BlockOk(b) && LineEnd(eol) && !b.Reply? && !b.Notice?
    requires '\n' !in line && !(">CLIENT:ENV," <= line)
    ensures Dispatch(u, Header(b) + eol, EnvLines(b.env, eol) + (line + eol + rest)) == ([], rest)
    ensures Dispatch(u, Header(b) + eol, EnvLines(b.env, eol) + line) == ([], "")
  {
    HeaderIsLine(b);
    TrimLine(Header(b), eol);
    BrokenEnv(b.env, eol, line, rest, map[]);
    match b
    case Connect(_, _, _, _) => ConnectHeader(b);
    case Establish(_, _) => EstablishHeader(b);
    case Disconnect(_, _) => DisconnectHeader(b);
  }

  /** A CONNECT or REAUTH that does not name both a client and a key is passed over, its block left to be read
      as notices. */
  lemma KeylessConnectIgnored(u: Setup, header: string, s: string)
    requires |Split(header, ',')| < 3
    ensures OnConnect(u, header, s) == ([], s)
  {
    CutIsSplit(header, ',');
    CutIsSplit(Cut(header, ',').1, ',');
  }

  /** What is written for a CONNECT or REAUTH, as its receiver reads it: one line of three words that approves
      this client under this key. */
  lemma ApprovalNamesClient(cid: string, kid: string) returns (line: string)
    requires ' ' !in cid && ' ' !in kid && '\n' !in cid && '\n' !in kid
    ensures Approval(cid, kid) == line + "\n" && '\n' !in line
    ensures Split(line, ' ') == ["client-auth-nt", cid, kid]
  {
    line := "client-auth-nt" + " " + cid + " " + kid;
    ThreeWords("client-auth-nt", cid, kid);
  }

  /** The reply lines among the blocks, as the waiting command receives them. */
  function Replies(bs: seq<Block>, eol: string): seq<string> {
    if bs == [] then [] else (if bs[0].Reply? then [bs[0].line + eol] else []) + Replies(bs[1..], eol)
  }

  function HandedOver(es: seq<Effect>): seq<string> {
    if es == [] then [] else (if es[0].Handed? then [es[0].raw] else []) + HandedOver(es[1..])
  }

  lemma {:induction false} HandedOverConcat(a: seq<Effect>, b: seq<Effect>)
    ensures HandedOver(a + b) == HandedOver(a) + HandedOver(b)
  {
    if a == [] {
      assert a + b == b;
    } else {
      assert (a + b)[1..] == a[1..] + b;
      HandedOverConcat(a[1..], b);
      assert HandedOver(a + b) == (if a[0].Handed? then [a[0].raw] else []) + HandedOver(a[1..] + b);
    }
  }

  /** No notice ever leaks into a command's reply, and no reply line is lost to a notice. */
  lemma {:induction false} CommandSeesOnlyReplies(u: Setup, bs: seq<Block>, eol: string)
    ensures HandedOver(AllEffects(u, bs, eol)) == Replies(bs, eol)
  {
    if bs != [] {
      CommandSeesOnlyReplies(u, bs[1..], eol);
      HandedOverConcat(EffectsOf(u, bs[0], eol), AllEffects(u, bs[1..], eol));
      BlockHandsOver(u, bs[0], eol);
    }
  }

  lemma BlockHandsOver(u: Setup, b: Block, eol: string)
    ensures HandedOver(EffectsOf(u, b, eol)) == if b.Reply? then [b.line + eol] else []
  {
    var es := EffectsOf(u, b, eol);
    if es != [] {
      assert es[1..] == [];
    }
  }
}
