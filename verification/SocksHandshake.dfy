/**
 The SOCKS5 client handshake of internal/upstream/socks.go: what it sends is what
 the server must be told, and what it reads is exactly what the server answers,
 so that the connection is left at the first byte of payload.
 */
module SocksHandshake {
  import opened Wrappers
  import opened Bytes
  import opened Seqs

  datatype Userinfo = Userinfo(username: Bytes, password: Option<Bytes>)

  /** A connection: what the peer will have sent, what was sent to it, and how many writes still succeed. */
  datatype Conn = Conn(input: Bytes, sent: Bytes, writes: nat)

  datatype Outcome =
    | Connected | IOError | BadVersion(v: byte) | UnsupportedMethod(m: byte)
    | AuthRejected | Refused(code: byte) | UnknownAddressType(t: byte)

  /** net.IP: 4 bytes, or 16 of which an IPv4-mapped address is one of the forms. */
  predicate IsIP(ip: Bytes) { |ip| == 4 || |ip| == 16 }

  const MAPPED_PREFIX: Bytes := [0, 0, 0, 0, 0, 0, 0, 0, 0, 0, 0xFF, 0xFF]

  function To4(ip: Bytes): Option<Bytes>
    requires IsIP(ip)
  {
    if |ip| == 4 then Some(ip)
    else if ip[..12] == MAPPED_PREFIX then Some(ip[12..])
    else None
  }

  /** byte(n) and binary.BigEndian.AppendUint16: the low bits. */
  function LowByte(n: nat): byte { (n % 256) as byte }

  function Uint16(n: nat): Bytes { [LowByte(n / 256), LowByte(n)] }

  // ----- requests -----

  function Greeting(user: Option<Userinfo>): Bytes { [5, 1, if user.Some? then 2 else 0] }

  /** A nil Userinfo reads as empty name and password. */
  function Username(user: Option<Userinfo>): Bytes { if user.Some? then user.value.username else [] }

  function Password(user: Option<Userinfo>): Bytes {
    if user.Some? && user.value.password.Some? then user.value.password.value else []
  }

  function AuthRequest(name: Bytes, pass: Bytes): Bytes {
    [1, LowByte(|name|)] + name + [LowByte(|pass|)] + pass
  }

  function ConnectRequest(ip: Bytes, port: nat): Bytes
    requires IsIP(ip)
  {
    (if To4(ip).Some? then [5, 1, 0, 1] + To4(ip).value else [5, 1, 0, 4] + ip) + Uint16(port)
  }

  // ----- the handshake as a function of the connection -----

  function Write(c: Conn, b: Bytes): (Conn, bool) {
    if c.writes == 0 then (c, false) else (Conn(c.input, c.sent + b, c.writes - 1), true)
  }

  function ReadFull(c: Conn, n: nat): (Conn, Option<Bytes>) {
    if |c.input| < n then (c.(input := []), None) else (c.(input := c.input[n..]), Some(c.input[..n]))
  }

  function Auth(c: Conn, user: Option<Userinfo>): (Conn, Outcome) {
    var (c1, ok) := Write(c, AuthRequest(Username(user), Password(user)));
    if !ok then (c1, IOError)
    else
      var (c2, status) := ReadFull(c1, 2);
      if status.None? then (c2, IOError)
      else if status.value[1] != 0 then (c2, AuthRejected)
      else (c2, Connected)
  }

  function DiscardAddress(c: Conn, addrLen: nat): (Conn, Outcome) {
    var (c1, rest) := ReadFull(c, addrLen + 2);
    (c1, if rest.Some? then Connected else IOError)
  }

  /** What RequestConnect does once the head of the reply is in. */
  function AfterHead(c: Conn, addrType: byte): (Conn, Outcome) {
    match addrType as int
    case 1 => DiscardAddress(c, 4)
    case 4 => DiscardAddress(c, 16)
    case 3 =>
      var (c1, len) := ReadFull(c, 1);
      if len.None? then (c1, IOError) else DiscardAddress(c1, len.value[0] as int)
    case _ => (c, UnknownAddressType(addrType))
  }

  function RequestConnect(c: Conn, ip: Bytes, port: nat): (Conn, Outcome)
    requires IsIP(ip)
  {
    var (c1, ok) := Write(c, ConnectRequest(ip, port));
    if !ok then (c1, IOError)
    else
      var (c2, head) := ReadFull(c1, 4);
      if head.None? then (c2, IOError)
      else if head.value[1] != 0 then (c2, Refused(head.value[1]))
      else AfterHead(c2, head.value[3])
  }

  function Handshake(c: Conn, user: Option<Userinfo>, ip: Bytes, port: nat): (Conn, Outcome)
    requires IsIP(ip)
  {
    var (c1, ok) := Write(c, Greeting(user));
    if !ok then (c1, IOError)
    else
      var (c2, reply) := ReadFull(c1, 2);
      if reply.None? then (c2, IOError)
      else if reply.value[0] != 5 then (c2, BadVersion(reply.value[0]))
      else if reply.value[1] == 0 then RequestConnect(c2, ip, port)
      else if reply.value[1] == 2 then
        var (c3, authed) := Auth(c2, user);
        if authed != Connected then (c3, authed) else RequestConnect(c3, ip, port)
      else (c2, UnsupportedMethod(reply.value[1]))
  }

  // ----- the Go code's own form -----

  class Stream {
    var input: Bytes
    var sent: Bytes
    var writes: nat

    constructor (input: Bytes, writes: nat)
      ensures View() == Conn(input, [], writes)
    {
      this.input, sent, this.writes := input, [], writes;
    }

    function View(): Conn
      reads this
    {
      Conn(input, sent, writes)
    }

    method Put(b: Bytes) returns (ok: bool)
      modifies this
      ensures (View(), ok) == Write(old(View()), b)
    {
      if writes == 0 {
        return false;
      }
      sent, writes := sent + b, writes - 1;
      return true;
    }

    method Take(n: nat) returns (r: Option<Bytes>)
      modifies this
      ensures (View(), r) == ReadFull(old(View()), n)
    {
      if |input| < n {
        input := [];
        return None;
      }
      r := Some(input[..n]);
      input := input[n..];
    }

    method DoAuth(user: Option<Userinfo>) returns (res: Outcome)
      modifies this
      ensures (View(), res) == Auth(old(View()), user)
    {
      var name, pass := Username(user), Password(user);
      var req := [1, LowByte(|name|)];
      req := req + name;
      req := req + [LowByte(|pass|)];
      req := req + pass;
      var ok := Put(req);
      if !ok {
        return IOError;
      }
      var status := Take(2);
      if status.None? {
        return IOError;
      }
      if status.value[1] != 0 {
        return AuthRejected;
      }
      return Connected;
    }

    method DoConnect(ip: Bytes, port: nat) returns (res: Outcome)
      requires IsIP(ip)
      modifies this
      ensures (View(), res) == RequestConnect(old(View()), ip, port)
    {
      var req: Bytes;
      if To4(ip).Some? {
        req := [5, 1, 0, 1] + To4(ip).value;
      } else {
        req := [5, 1, 0, 4] + ip;
      }
      req := req + Uint16(port);
      var ok := Put(req);
      if !ok {
        return IOError;
      }
      var head := Take(4);
      if head.None? {
        return IOError;
      }
      if head.value[1] != 0 {
        return Refused(head.value[1]);
      }
      var addrLen: nat;
      match head.value[3] as int {
        case 1 => addrLen := 4;
        case 4 => addrLen := 16;
        case 3 =>
          var len := Take(1);
          if len.None? {
            return IOError;
          }
          addrLen := len.value[0] as int;
        case _ => return UnknownAddressType(head.value[3]);
      }
      var rest := Take(addrLen + 2);
      return if rest.Some? then Connected else IOError;
    }

    method DoHandshake(user: Option<Userinfo>, ip: Bytes, port: nat) returns (res: Outcome)
      requires IsIP(ip)
      modifies this
      ensures (View(), res) == Handshake(old(View()), user, ip, port)
    {
      var ok := Put(Greeting(user));
      if !ok {
        return IOError;
      }
      var reply := Take(2);
      if reply.None? {
        return IOError;
      }
      if reply.value[0] != 5 {
        return BadVersion(reply.value[0]);
      }
      match reply.value[1] as int {
        case 0 =>
        case 2 =>
          res := DoAuth(user);
          if res != Connected {
            return;
          }
        case _ => return UnsupportedMethod(reply.value[1]);
      }
      res := DoConnect(ip, port);
    }
  }

  // ----- what the server reads (sections 3 and 4 of RFC 1928, section 2 of RFC 1929) -----

  function DecodeGreeting(s: Bytes): Option<(Bytes, Bytes)> {
    if |s| < 2 || s[0] != 5 || |s| < 2 + s[1] as int then None
    else Some((s[2..2 + s[1] as int], s[2 + s[1] as int..]))
  }

  /** Username, password, and the bytes after the message. */
  function DecodeAuth(s: Bytes): Option<(Bytes, Bytes, Bytes)> {
    if |s| < 2 || s[0] != 1 then None
    else
      var n := 2 + s[1] as int;
      if |s| < n + 1 then None
      else
        var m := n + 1 + s[n] as int;
        if |s| < m then None else Some((s[2..n], s[n + 1..m], s[m..]))
  }

  /** Destination address and port of a CONNECT, and the bytes after the message. */
  function DecodeConnect(s: Bytes): Option<(Bytes, nat, Bytes)> {
    if |s| < 4 || s[0] != 5 || s[1] != 1 || s[2] != 0 || (s[3] != 1 && s[3] != 4) then None
    else
      var n := if s[3] == 1 then 8 else 20;
      if |s| < n + 2 then None
      else Some((s[4..n], s[n] as int * 256 + s[n + 1] as int, s[n + 2..]))
  }

  lemma GreetingDecodes(user: Option<Userinfo>, rest: Bytes)
    ensures DecodeGreeting(Greeting(user) + rest) == Some(([if user.Some? then 2 else 0], rest))
  {
    var s := Greeting(user) + rest;
    assert s[2..3] == [if user.Some? then 2 else 0];
    assert s[3..] == rest;
  }

  /** The credentials arrive as they are exactly when each fits its length byte; a longer one is cut off
      by the wrapped length and the rest is read as something else. */
  lemma AuthDecodesIffShort(name: Bytes, pass: Bytes, rest: Bytes)
    ensures DecodeAuth(AuthRequest(name, pass) + rest) == Some((name, pass, rest)) <==> |name| <= 255 && |pass| <= 255
  {
    var s := AuthRequest(name, pass) + rest;
    if |name| <= 255 {
      var n := 2 + |name|;
      assert s[1] as int == |name| && s[2..n] == name;
      assert s[n] == LowByte(|pass|);
      if |pass| <= 255 {
        assert s[n + 1..n + 1 + |pass|] == pass;
        assert s[n + 1 + |pass|..] == rest;
      }
    }
  }

  /** An IPv4-mapped IPv6 address: ten zero bytes and two of all ones (section 2.5.5.2 of RFC 4291). */
  predicate Mapped(ip: Bytes) {
    |ip| == 16 && (forall i :: 0 <= i < 10 ==> ip[i] == 0) && ip[10] == 255 && ip[11] == 255
  }

  /** The address a net.IP stands for, in the shortest of its forms. */
  function Shortest(ip: Bytes): Bytes
    requires IsIP(ip)
  {
    if Mapped(ip) then ip[12..] else ip
  }

  lemma To4IsMapped(ip: Bytes)
    requires IsIP(ip)
    ensures Shortest(ip) == match To4(ip) case Some(ip4) => ip4 case None => ip
    ensures To4(ip).Some? <==> |ip| == 4 || Mapped(ip)
    ensures |Shortest(ip)| == if To4(ip).Some? then 4 else 16
  {
    if |ip| == 16 {
      assert forall i :: 0 <= i < 12 ==> ip[..12][i] == ip[i];
    }
  }

  lemma ConnectDecodes(ip: Bytes, port: nat, rest: Bytes)
    requires IsIP(ip) && port < 65536
    ensures DecodeConnect(ConnectRequest(ip, port) + rest) == Some((Shortest(ip), port, rest))
  {
    To4IsMapped(ip);
    var s := ConnectRequest(ip, port) + rest;
    var n := if To4(ip).Some? then 8 else 20;
    assert s[4..n] == Shortest(ip);
    assert s[n] == LowByte(port / 256) && s[n + 1] == LowByte(port);
    assert s[n + 2..] == rest;
  }

  // ----- what the server answers (section 6 of RFC 1928) -----

  datatype Bound = IPv4Bound(addr: Bytes) | IPv6Bound(addr: Bytes) | NameBound(name: Bytes)

  /** A server's side of a successful handshake: the chosen method, and the bytes nobody looks at. */
  datatype Replies = Replies(auth: bool, authVersion: byte, version: byte, reserved: byte, bound: Bound, port: Bytes)

  predicate RepliesOk(r: Replies) {
    && |r.port| == 2
    && match r.bound
       case IPv4Bound(addr) => |addr| == 4
       case IPv6Bound(addr) => |addr| == 16
       case NameBound(name) => |name| <= 255
  }

  function BoundType(b: Bound): byte {
    match b case IPv4Bound(_) => 1 case IPv6Bound(_) => 4 case NameBound(_) => 3
  }

  function BoundBytes(b: Bound): Bytes {
    match b
    case IPv4Bound(addr) => addr
    case IPv6Bound(addr) => addr
    case NameBound(name) => [LowByte(|name|)] + name
  }

  function MethodReply(r: Replies): Bytes { [5, if r.auth then 2 else 0] }

  function AuthReply(r: Replies): Bytes { if r.auth then [r.authVersion, 0] else [] }

  function ConnectReply(r: Replies): Bytes {
    [r.version, 0, r.reserved, BoundType(r.bound)] + BoundBytes(r.bound) + r.port
  }

  function RepliesBytes(r: Replies): Bytes { MethodReply(r) + AuthReply(r) + ConnectReply(r) }

  /** Everything the client sends in a handshake with those answers. */
  function RequestsBytes(r: Replies, user: Option<Userinfo>, ip: Bytes, port: nat): Bytes
    requires IsIP(ip)
  {
    Greeting(user) + (if r.auth then AuthRequest(Username(user), Password(user)) else []) + ConnectRequest(ip, port)
  }

  lemma ReadExact(c: Conn, b: Bytes, rest: Bytes)
    requires c.input == b + rest
    ensures ReadFull(c, |b|) == (c.(input := rest), Some(b))
  {
  }

  lemma ConnectReads(c: Conn, r: Replies, ip: Bytes, port: nat, payload: Bytes)
    requires IsIP(ip) && RepliesOk(r) && c.writes >= 1 && c.input == ConnectReply(r) + payload
    ensures RequestConnect(c, ip, port) == (Conn(payload, c.sent + ConnectRequest(ip, port), c.writes - 1), Connected)
  {
    var c1 := Write(c, ConnectRequest(ip, port)).0;
    var head: Bytes := [r.version, 0, r.reserved, BoundType(r.bound)];
    var tail := BoundBytes(r.bound) + r.port;
    Associate(head, BoundBytes(r.bound), r.port);
    Associate(head, tail, payload);
    ReadExact(c1, head, tail + payload);
    BoundReads(c1.(input := tail + payload), r, payload);
  }

  lemma BoundReads(c: Conn, r: Replies, payload: Bytes)
    requires RepliesOk(r) && c.input == BoundBytes(r.bound) + r.port + payload
    ensures AfterHead(c, BoundType(r.bound)) == (c.(input := payload), Connected)
  {
    var tail := BoundBytes(r.bound) + r.port;
    match r.bound
    case IPv4Bound(addr) => ReadExact(c, tail, payload);
    case IPv6Bound(addr) => ReadExact(c, tail, payload);
    case NameBound(name) =>
      var len: Bytes := [LowByte(|name|)];
      Associate(len, name, r.port);
      Associate(len, name + r.port, payload);
      ReadExact(c, len, name + r.port + payload);
      ReadExact(c.(input := name + r.port + payload), name + r.port, payload);
  }

  /** The connection after the greeting and the method reply. */
  function Greeted(c: Conn, user: Option<Userinfo>, rest: Bytes): Conn
    requires c.writes > 0
  {
    Conn(rest, c.sent + Greeting(user), c.writes - 1)
  }

  lemma MethodReads(c: Conn, chosen: byte, user: Option<Userinfo>, ip: Bytes, port: nat, rest: Bytes)
    requires IsIP(ip) && c.writes > 0 && c.input == [5, chosen] + rest
    ensures chosen == 0 ==> Handshake(c, user, ip, port) == RequestConnect(Greeted(c, user, rest), ip, port)
    ensures chosen == 2 && Auth(Greeted(c, user, rest), user).1 == Connected ==>
      Handshake(c, user, ip, port) == RequestConnect(Auth(Greeted(c, user, rest), user).0, ip, port)
  {
    ReadExact(Write(c, Greeting(user)).0, [5, chosen], rest);
  }

  lemma AuthReads(c: Conn, version: byte, user: Option<Userinfo>, rest: Bytes)
    requires c.writes > 0 && c.input == [version, 0] + rest
    ensures Auth(c, user) == (Conn(rest, c.sent + AuthRequest(Username(user), Password(user)), c.writes - 1), Connected)
  {
    ReadExact(Write(c, AuthRequest(Username(user), Password(user))).0, [version, 0], rest);
  }

  lemma Regroup(sent: Bytes, greeting: Bytes, auth: Bytes, connect: Bytes)
    ensures sent + greeting + auth + connect == sent + (greeting + auth + connect)
    ensures sent + greeting + connect == sent + (greeting + [] + connect)
  {
  }

  lemma PlainLeavesPayload(c: Conn, r: Replies, user: Option<Userinfo>, ip: Bytes, port: nat, payload: Bytes)
    requires IsIP(ip) && RepliesOk(r) && c.writes >= 3 && !r.auth && c.input == [5, 0] + (ConnectReply(r) + payload)
    ensures Handshake(c, user, ip, port)
      == (Conn(payload, c.sent + Greeting(user) + ConnectRequest(ip, port), c.writes - 2), Connected)
  {
    var connect := ConnectReply(r) + payload;
    MethodReads(c, 0, user, ip, port, connect);
    ConnectReads(Greeted(c, user, connect), r, ip, port, payload);
  }

  lemma AuthLeavesPayload(c: Conn, r: Replies, user: Option<Userinfo>, ip: Bytes, port: nat, payload: Bytes)
    requires IsIP(ip) && RepliesOk(r) && c.writes >= 3 && r.auth
    requires c.input == [5, 2] + ([r.authVersion, 0] + (ConnectReply(r) + payload))
    ensures Handshake(c, user, ip, port)
      == (Conn(payload,
               c.sent + Greeting(user) + AuthRequest(Username(user), Password(user)) + ConnectRequest(ip, port),
               c.writes - 3), Connected)
  {
    var connect := ConnectReply(r) + payload;
    var rest := [r.authVersion, 0] + connect;
    MethodReads(c, 2, user, ip, port, rest);
    AuthReads(Greeted(c, user, rest), r.authVersion, user, connect);
    ConnectReads(Auth(Greeted(c, user, rest), user).0, r, ip, port, payload);
  }

  /** Whatever bound address the server reports, in any of the three forms, a completed handshake has consumed
      its answers to the last byte and left the payload. */
  lemma HandshakeLeavesPayload(c: Conn, r: Replies, user: Option<Userinfo>, ip: Bytes, port: nat, payload: Bytes)
    requires IsIP(ip) && RepliesOk(r) && c.writes >= 3 && c.input == RepliesBytes(r) + payload
    ensures var (c', res) := Handshake(c, user, ip, port);
      res == Connected && c'.input == payload && c'.sent == c.sent + RequestsBytes(r, user, ip, port)
  {
    Regroup(c.sent, Greeting(user), AuthRequest(Username(user), Password(user)), ConnectRequest(ip, port));
    Regroup(MethodReply(r), AuthReply(r), ConnectReply(r), payload);
    Associate(AuthReply(r), ConnectReply(r), payload);
    assert c.input == MethodReply(r) + (AuthReply(r) + (ConnectReply(r) + payload));
    if r.auth {
      AuthLeavesPayload(c, r, user, ip, port, payload);
    } else {
      assert [] + (ConnectReply(r) + payload) == ConnectReply(r) + payload;
      PlainLeavesPayload(c, r, user, ip, port, payload);
    }
  }

  /** The input of a CONNECT that completes: four bytes, an address of the stated form, a port. */
  lemma ConnectedMeansShape(c: Conn, ip: Bytes, port: nat) returns (n: nat)
    requires IsIP(ip) && RequestConnect(c, ip, port).1 == Connected
    ensures var s := c.input;
      && 4 <= n && |s| >= n + 2 && s[1] == 0
      && RequestConnect(c, ip, port).0.input == s[n + 2..]
      && ((s[3] == 1 && n == 8) || (s[3] == 4 && n == 20) || (s[3] == 3 && n == 5 + s[4] as int))
  {
    var s := c.input;
    var c2 := ReadFull(Write(c, ConnectRequest(ip, port)).0, 4).0;
    assert c2.input == s[4..];
    if s[3] == 3 {
      n := 5 + s[4] as int;
      assert s[4..][1..] == s[5..];
      assert s[5..][n - 3..] == s[n + 2..];
    } else {
      n := if s[3] == 1 then 8 else 20;
      assert s[4..][n - 2..] == s[n + 2..];
    }
  }

  function BoundAt(s: Bytes, n: nat): Bound
    requires 5 <= n <= |s|
  {
    if s[3] == 1 then IPv4Bound(s[4..n]) else if s[3] == 4 then IPv6Bound(s[4..n]) else NameBound(s[5..n])
  }

  lemma ConnectedMeansReply(c: Conn, ip: Bytes, port: nat, auth: bool, authVersion: byte) returns (r: Replies)
    requires IsIP(ip) && RequestConnect(c, ip, port).1 == Connected
    ensures RepliesOk(r) && r.auth == auth && r.authVersion == authVersion
    ensures c.input == ConnectReply(r) + RequestConnect(c, ip, port).0.input
  {
    var s := c.input;
    var n := ConnectedMeansShape(c, ip, port);
    r := Replies(auth, authVersion, s[0], s[2], BoundAt(s, n), s[n..n + 2]);
    assert s[..4] == [r.version, 0, r.reserved, BoundType(r.bound)];
    assert BoundBytes(r.bound) == s[4..n];
    FourParts(s, n);
  }

  lemma FourParts(s: Bytes, n: nat)
    requires 4 <= n <= |s| - 2
    ensures s == s[..4] + s[4..n] + s[n..n + 2] + s[n + 2..]
  {
    assert s[..4] + s[4..n] == s[..n];
    assert s[..n] + s[n..n + 2] == s[..n + 2];
  }

  /** The answers so far of a handshake that completes, and the connection its CONNECT runs on. */
  lemma ConnectedMeansMethod(c: Conn, user: Option<Userinfo>, ip: Bytes, port: nat)
    returns (c': Conn, auth: bool, version: byte)
    requires IsIP(ip) && Handshake(c, user, ip, port).1 == Connected
    ensures Handshake(c, user, ip, port) == RequestConnect(c', ip, port)
    ensures c.input == (if auth then [5, 2, version, 0] else [5, 0]) + c'.input
  {
    var s := c.input;
    var c2 := ReadFull(Write(c, Greeting(user)).0, 2).0;
    assert c2.input == s[2..];
    if s[1] == 0 {
      c', auth, version := c2, false, 0;
      assert s == [5, 0] + s[2..];
    } else {
      c', auth, version := Auth(c2, user).0, true, s[2];
      assert c'.input == s[4..] by {
        assert s[2..][2..] == s[4..];
      }
      assert s[2..][1] == s[3];
      assert s == [5, 2, version, 0] + s[4..];
    }
  }

  /** And the handshake completes in no other case: what it consumed was such a set of answers. */
  lemma ConnectedMeansReplies(c: Conn, user: Option<Userinfo>, ip: Bytes, port: nat)
    requires IsIP(ip) && Handshake(c, user, ip, port).1 == Connected
    ensures exists r :: RepliesOk(r) && c.input == RepliesBytes(r) + Handshake(c, user, ip, port).0.input
  {
    var c', auth, version := ConnectedMeansMethod(c, user, ip, port);
    var r := ConnectedMeansReply(c', ip, port, auth, version);
    var left := Handshake(c, user, ip, port).0.input;
    assert MethodReply(r) + AuthReply(r) == if auth then [5, 2, version, 0] else [5, 0];
    Associate(MethodReply(r) + AuthReply(r), ConnectReply(r), left);
  }

  // ----- every outcome, read off the bytes that came -----

  /** Where the reply to CONNECT begins. */
  function ReplyAt(s: Bytes): nat
    requires |s| >= 2
  {
    if s[1] == 2 then 4 else 2
  }

  predicate MethodTaken(s: Bytes) { |s| >= 2 && s[0] == 5 && (s[1] == 0 || s[1] == 2) }

  predicate LetIn(s: Bytes) { MethodTaken(s) && |s| >= ReplyAt(s) && (s[1] == 2 ==> s[3] == 0) }

  /** How many bytes a reply takes that tells of success, from at on; None while that cannot be told. */
  function ReplyEnd(s: Bytes, at: nat): Option<nat>
    requires at + 4 <= |s|
  {
    if s[at + 3] == 1 then Some(at + 10)
    else if s[at + 3] == 4 then Some(at + 22)
    else if s[at + 3] == 3 && at + 5 <= |s| then Some(at + 7 + s[at + 4] as int)
    else None
  }

  function Verdict(s: Bytes): Outcome {
    if |s| < 2 then IOError
    else if s[0] != 5 then BadVersion(s[0])
    else if s[1] != 0 && s[1] != 2 then UnsupportedMethod(s[1])
    else if |s| < ReplyAt(s) then IOError
    else if s[1] == 2 && s[3] != 0 then AuthRejected
    else ReplyVerdict(s, ReplyAt(s))
  }

  function ReplyVerdict(s: Bytes, at: nat): Outcome {
    if |s| < at + 4 then IOError
    else if s[at + 1] != 0 then Refused(s[at + 1])
    else if s[at + 3] != 1 && s[at + 3] != 3 && s[at + 3] != 4 then UnknownAddressType(s[at + 3])
    else if ReplyEnd(s, at).None? || |s| < ReplyEnd(s, at).value then IOError
    else Connected
  }

  /** Whatever the server sends, or stops sending, while writes succeed: the outcome names the first answer that
      was not as it had to be, and the client has sent exactly the requests it had got to. */
  lemma OutcomeExact(c: Conn, user: Option<Userinfo>, ip: Bytes, port: nat)
    requires IsIP(ip) && c.writes >= 3
    ensures var (c', res) := Handshake(c, user, ip, port);
      && res == Verdict(c.input)
      && c'.sent == c.sent + Greeting(user)
        + (if MethodTaken(c.input) && c.input[1] == 2 then AuthRequest(Username(user), Password(user)) else [])
        + (if LetIn(c.input) then ConnectRequest(ip, port) else [])
  {
    var s, c1 := c.input, Write(c, Greeting(user)).0;
    assert c1.sent + [] + [] == c1.sent;
    if MethodTaken(s) {
      var c2 := ReadFull(c1, 2).0;
      assert c2.input == s[2..];
      if s[1] == 0 {
        ReplyOutcome(c2, s, 2, ip, port);
        assert c1.sent + [] + ConnectRequest(ip, port) == c1.sent + ConnectRequest(ip, port);
      } else {
        AuthOutcome(c2, s, user);
        if LetIn(s) {
          ReplyOutcome(Auth(c2, user).0, s, 4, ip, port);
        } else {
          assert Auth(c2, user).0.sent + [] == Auth(c2, user).0.sent;
        }
      }
    }
  }

  lemma AuthOutcome(c: Conn, s: Bytes, user: Option<Userinfo>)
    requires c.writes >= 1 && |s| >= 2 && c.input == s[2..]
    ensures var (c', res) := Auth(c, user);
      && res == (if |s| < 4 then IOError else if s[3] != 0 then AuthRejected else Connected)
      && c'.sent == c.sent + AuthRequest(Username(user), Password(user)) && c'.writes == c.writes - 1
      && (|s| >= 4 ==> c'.input == s[4..])
  {
    if |s| >= 4 {
      assert s[2..][2..] == s[4..] && s[2..][..2][1] == s[3];
    }
  }

  lemma ReplyOutcome(c: Conn, s: Bytes, at: nat, ip: Bytes, port: nat)
    requires IsIP(ip) && c.writes >= 1 && at <= |s| && c.input == s[at..]
    ensures var (c', res) := RequestConnect(c, ip, port);
      res == ReplyVerdict(s, at) && c'.sent == c.sent + ConnectRequest(ip, port)
  {
    if |s| >= at + 4 {
      var c2 := ReadFull(Write(c, ConnectRequest(ip, port)).0, 4).0;
      assert s[at..][..4][1] == s[at + 1] && s[at..][..4][3] == s[at + 3];
      assert c2.input == s[at + 4..] by {
        assert s[at..][4..] == s[at + 4..];
      }
      if |s| >= at + 5 {
        assert s[at + 4..][..1][0] == s[at + 4] && s[at + 4..][1..] == s[at + 5..];
      }
    }
  }

  /** The server, reading what the client sent, learns the offered method, the credentials and the destination. */
  lemma ServerLearnsRequest(r: Replies, user: Option<Userinfo>, ip: Bytes, port: nat)
    requires IsIP(ip) && port < 65536
    requires user.Some? ==> |user.value.username| <= 255
    requires user.Some? && user.value.password.Some? ==> |user.value.password.value| <= 255
    ensures var s := RequestsBytes(r, user, ip, port);
      && DecodeGreeting(s).Some? && DecodeGreeting(s).value.0 == [if user.Some? then 2 else 0]
      && (if r.auth then
            var auth := DecodeAuth(DecodeGreeting(s).value.1);
            && auth.Some?
            && auth.value.0 == (match user case None => [] case Some(u) => u.username)
            && auth.value.1 == (match user case Some(Userinfo(_, Some(password))) => password case _ => [])
            && DecodeConnect(auth.value.2) == Some((Shortest(ip), port, []))
          else DecodeConnect(DecodeGreeting(s).value.1) == Some((Shortest(ip), port, [])))
  {
    var connect := ConnectRequest(ip, port);
    GreetingLeaves(r, user, connect);
    ConnectAloneDecodes(ip, port);
    if r.auth {
      AuthDecodesIffShort(Username(user), Password(user), connect);
    }
  }

  lemma GreetingLeaves(r: Replies, user: Option<Userinfo>, connect: Bytes)
    ensures var auth := AuthRequest(Username(user), Password(user));
      DecodeGreeting(Greeting(user) + (if r.auth then auth else []) + connect)
        == Some(([if user.Some? then 2 else 0], if r.auth then auth + connect else connect))
  {
    var auth := AuthRequest(Username(user), Password(user));
    if r.auth {
      assert Greeting(user) + auth + connect == Greeting(user) + (auth + connect);
      GreetingDecodes(user, auth + connect);
    } else {
      assert Greeting(user) + [] == Greeting(user);
      GreetingDecodes(user, connect);
    }
  }

  lemma ConnectAloneDecodes(ip: Bytes, port: nat)
    requires IsIP(ip) && port < 65536
    ensures DecodeConnect(ConnectRequest(ip, port)) == Some((Shortest(ip), port, []))
  {
    ConnectDecodes(ip, port, []);
    assert ConnectRequest(ip, port) + [] == ConnectRequest(ip, port);
  }
}
