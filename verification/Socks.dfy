// The SOCKS5 client used for a peering pre-flight, against decoders written
// from sections 3 to 6 of RFC 1928 and section 2 of RFC 1929.

module Socks {
  import opened Octets
  import opened Options

  function Byte(n: int): byte {
    (n % 256) as byte
  }

  // ----- the proxy's reading of what the client writes ----------------------

  datatype Host = IPv4(octets: seq<byte>) | IPv6(octets: seq<byte>) | Domain(name: seq<byte>)

  /** Section 3 of RFC 1928: version 5, a count and that many methods. */
  function DecodeGreeting(b: seq<byte>): Option<seq<byte>> {
    if |b| >= 2 && b[0] == 5 && |b| == 2 + b[1] as int then Some(b[2..]) else None
  }

  /** Section 2 of RFC 1929: version 1 and two strings of 1 to 255 bytes, each after its length. */
  function DecodeAuth(b: seq<byte>): Option<(seq<byte>, seq<byte>)> {
    if |b| < 2 || b[0] != 1 || b[1] == 0 || |b| < 3 + b[1] as int then None
    else
      var u := b[1] as int;
      var p := b[2 + u] as int;
      if p == 0 || |b| != 3 + u + p then None else Some((b[2..2 + u], b[3 + u..]))
  }

  /** Section 5 of RFC 1928: an address type, an address of its length, and what follows. */
  function DecodeAddress(b: seq<byte>): Option<(Host, seq<byte>)> {
    if b == [] then None
    else if b[0] == 1 then
      if |b| < 5 then None else Some((IPv4(b[1..5]), b[5..]))
    else if b[0] == 4 then
      if |b| < 17 then None else Some((IPv6(b[1..17]), b[17..]))
    else if b[0] == 3 then
      if |b| < 2 || |b| < 2 + b[1] as int then None
      else Some((Domain(b[2..2 + b[1] as int]), b[2 + b[1] as int..]))
    else None
  }

  /** Section 4 of RFC 1928: a CONNECT request and nothing after it. */
  function DecodeRequest(b: seq<byte>): Option<(Host, int)> {
    if |b| < 4 || b[0] != 5 || b[1] != 1 || b[2] != 0 then None
    else match DecodeAddress(b[3..])
      case None => None
      case Some((host, rest)) => if |rest| != 2 then None else Some((host, rest[0] as int * 256 + rest[1] as int))
  }

  // ----- what the proxy writes ----------------------------------------------

  /** Section 6 of RFC 1928: version 5, code 0, a reserved zero byte, an address and a port.  The length of
      the reply that opens b, if it is one and grants the connection. */
  function RfcGrantLength(b: seq<byte>): (n: Option<nat>)
    ensures n.Some? ==> n.value <= |b|
  {
    if |b| < 4 || b[0] != 5 || b[1] != 0 || b[2] != 0 then None
    else match DecodeAddress(b[3..])
      case None => None
      case Some((_, rest)) => if |rest| < 2 then None else Some(|b| - |rest| + 2)
  }

  /** Everything a proxy writes to grant a connection: the method selection of section 3 of RFC 1928, the
      status of section 2 of RFC 1929, version 1 and code 0, if it selected credentials, and the reply. */
  function RfcHandshakeLength(b: seq<byte>, hasUser: bool): (n: Option<nat>)
    ensures n.Some? ==> n.value <= |b|
  {
    if |b| < 2 || b[0] != 5 then None
    else if b[1] == 0 then
      match RfcGrantLength(b[2..]) case None => None case Some(n) => Some(2 + n)
    else if b[1] == 2 && hasUser then
      if |b| < 4 || b[2] != 1 || b[3] != 0 then None
      else match RfcGrantLength(b[4..]) case None => None case Some(n) => Some(4 + n)
    else None
  }

  // ----- the client's reading of it -----------------------------------------

  /** The reply as the client reads it: the reserved byte may be anything. */
  function GrantLength(b: seq<byte>): (n: Option<nat>)
    ensures n.Some? ==> n.value <= |b|
  {
    if |b| < 4 || b[0] != 5 || b[1] != 0 then None
    else match DecodeAddress(b[3..])
      case None => None
      case Some((_, rest)) => if |rest| < 2 then None else Some(|b| - |rest| + 2)
  }

  /** The whole grant as the client reads it: the version of the status may be anything too. */
  function HandshakeLength(b: seq<byte>, hasUser: bool): Option<nat> {
    if |b| < 2 || b[0] != 5 then None
    else if b[1] == 0 then
      match GrantLength(b[2..]) case None => None case Some(n) => Some(2 + n)
    else if b[1] == 2 && hasUser then
      if |b| < 4 || b[3] != 0 then None
      else match GrantLength(b[4..]) case None => None case Some(n) => Some(4 + n)
    else None
  }

  /** b with the two bytes the client does not look at put right: the version of the status and the reserved
      byte of the reply. */
  function PutRight(b: seq<byte>): seq<byte> {
    if |b| >= 5 && b[1] == 0 then b[4 := 0]
    else if |b| >= 7 && b[1] == 2 then b[2 := 1][6 := 0]
    else b
  }

  lemma ReservedByteIgnored(b: seq<byte>)
    requires |b| >= 3
    ensures GrantLength(b) == RfcGrantLength(b[2 := 0])
  {
    assert |b| >= 4 ==> b[2 := 0][3..] == b[3..];
  }

  lemma ShortGrant(b: seq<byte>)
    ensures |b| < 4 ==> GrantLength(b).None? && RfcGrantLength(b).None?
  {
  }

  /** Exactly which bytes the client takes for a grant: those that are one by the RFCs once the two bytes it
      does not look at are put right. */
  lemma GrantsUpToIgnoredBytes(b: seq<byte>, hasUser: bool)
    ensures HandshakeLength(b, hasUser) == RfcHandshakeLength(PutRight(b), hasUser)
  {
    hide GrantLength, RfcGrantLength;
    if |b| >= 5 && b[1] == 0 {
      ReservedByteIgnored(b[2..]);
      assert b[4 := 0][2..] == b[2..][2 := 0];
    } else if |b| >= 7 && b[1] == 2 {
      ReservedByteIgnored(b[4..]);
      assert b[2 := 1][6 := 0][4..] == b[4..][2 := 0];
    } else if |b| >= 4 {
      ShortGrant(b[2..]);
      ShortGrant(b[4..]);
    } else if |b| >= 2 {
      ShortGrant(b[2..]);
    }
  }

  /** In particular every grant by the RFCs is taken for one, and read to its last byte. */
  lemma RfcGrantsAccepted(b: seq<byte>, hasUser: bool)
    requires RfcHandshakeLength(b, hasUser).Some?
    ensures HandshakeLength(b, hasUser) == RfcHandshakeLength(b, hasUser)
  {
  }

  /** Not only those: a status of version 7 and a reserved byte of 99 are no grant by the RFCs, and the client
      connects. */
  lemma MoreThanRfcAccepted()
    ensures var b: seq<byte> := [5, 2, 7, 0, 5, 0, 99, 1, 0, 0, 0, 0, 0, 0];
      RfcHandshakeLength(b, true).None? && HandshakeLength(b, true) == Some(|b|)
  {
    var b: seq<byte> := [5, 2, 7, 0, 5, 0, 99, 1, 0, 0, 0, 0, 0, 0];
    assert b[4..][3..] == [1, 0, 0, 0, 0, 0, 0];
  }

  // ----- the client ---------------------------------------------------------

  /** The target after its host and port have been taken apart; None when that fails. */
  datatype Target = Target(host: Host, port: Option<int>)

  predicate ValidHost(h: Host) {
    (h.IPv4? ==> |h.octets| == 4) && (h.IPv6? ==> |h.octets| == 16)
  }

  predicate ValidTarget(t: Option<Target>) {
    t.Some? && t.value.port.Some? && 1 <= t.value.port.value <= 65535
  }

  function Greeting(user: seq<byte>): seq<byte> {
    if user == [] then [5, 1, 0] else [5, 2, 0, 2]
  }

  function AuthMessage(user: seq<byte>, pass: seq<byte>): seq<byte> {
    [1, Byte(|user|)] + user + [Byte(|pass|)] + pass
  }

  function AddressBytes(h: Host): seq<byte> {
    match h
    case IPv4(octets) => [1] + octets
    case IPv6(octets) => [4] + octets
    case Domain(name) => [3, Byte(|name|)] + name
  }

  function Request(h: Host, port: int): seq<byte> {
    [5, 1, 0] + AddressBytes(h) + [Byte(port / 256), Byte(port)]
  }

  lemma GreetingRoundTrip(user: seq<byte>)
    ensures DecodeGreeting(Greeting(user)) == Some(if user == [] then [0] else [0, 2])
  {
  }

  /** The credentials arrive exactly when RFC 1929 can carry them; an empty password cannot be. */
  lemma AuthRoundTrip(user: seq<byte>, pass: seq<byte>)
    requires user != []
    ensures DecodeAuth(AuthMessage(user, pass)) == Some((user, pass))
       <==> |user| <= 255 && 1 <= |pass| <= 255
  {
    var b := AuthMessage(user, pass);
    if |user| <= 255 && |pass| <= 255 {
      assert b[2 + |user|] == Byte(|pass|);
      assert b[2..2 + |user|] == user && b[3 + |user|..] == pass;
    }
  }

  lemma AddressRoundTrip(h: Host, rest: seq<byte>)
    requires ValidHost(h) && (h.Domain? ==> |h.name| <= 255)
    ensures DecodeAddress(AddressBytes(h) + rest) == Some((h, rest))
  {
    var b := AddressBytes(h) + rest;
    match h
    case IPv4(octets) => assert b[1..5] == octets && b[5..] == rest;
    case IPv6(octets) => assert b[1..17] == octets && b[17..] == rest;
    case Domain(name) => assert b[2..2 + |name|] == name && b[2 + |name|..] == rest;
  }

  /** The proxy reads the target back exactly when a domain name fits its length byte. */
  lemma RequestRoundTrip(h: Host, port: int)
    requires ValidHost(h) && 1 <= port <= 65535
    ensures DecodeRequest(Request(h, port)) == Some((h, port)) <==> (h.Domain? ==> |h.name| <= 255)
  {
    hide DecodeAddress, AddressBytes;
    var b := Request(h, port);
    var tail := [Byte(port / 256), Byte(port)];
    assert b[3..] == AddressBytes(h) + tail;
    if h.Domain? ==> |h.name| <= 255 {
      AddressRoundTrip(h, tail);
    } else {
      DecodedNameFits(b[3..]);
    }
  }

  lemma DecodedNameFits(b: seq<byte>)
    ensures DecodeAddress(b).Some? && DecodeAddress(b).value.0.Domain? ==> |DecodeAddress(b).value.0.name| <= 255
  {
  }

  function Concat(chunks: seq<seq<byte>>): seq<byte> {
    if chunks == [] then [] else chunks[0] + Concat(chunks[1..])
  }

  /** A connection: what the peer has written arrives in chunks of any sizes, and writes succeed until the
      connection breaks. */
  class Conn {
    var incoming: seq<seq<byte>>
    var written: seq<seq<byte>>
    var writesLeft: nat

    ghost function Stream(): seq<byte>
      reads this
    {
      Concat(incoming)
    }

    constructor (incoming: seq<seq<byte>>, writesLeft: nat)
      ensures this.incoming == incoming && written == [] && this.writesLeft == writesLeft
    {
      this.incoming := incoming;
      written := [];
      this.writesLeft := writesLeft;
    }

    method Write(b: seq<byte>) returns (ok: bool)
      modifies this
      ensures ok == (old(writesLeft) > 0) && incoming == old(incoming)
      ensures written == if ok then old(written) + [b] else old(written)
      ensures ok ==> writesLeft == old(writesLeft) - 1
    {
      if writesLeft == 0 {
        return false;
      }
      writesLeft := writesLeft - 1;
      written := written + [b];
      return true;
    }

    /** One read: at most n bytes of the next chunk; nothing at the end of the stream. */
    method Read(n: nat) returns (b: seq<byte>)
      requires n > 0
      modifies this`incoming
      ensures |b| <= n && old(Stream()) == b + Stream()
      ensures |incoming| <= old(|incoming|) && (b == [] && old(incoming) != [] ==> |incoming| < old(|incoming|))
    {
      if incoming == [] {
        return [];
      }
      var chunk := incoming[0];
      if |chunk| <= n {
        incoming := incoming[1..];
        return chunk;
      }
      b := chunk[..n];
      incoming := [chunk[n..]] + incoming[1..];
      assert chunk == chunk[..n] + chunk[n..];
      assert incoming[1..] == old(incoming)[1..];
    }

    /** io.ReadFull: reads until n bytes have come, however they are chunked. */
    method ReadFull(n: nat) returns (b: seq<byte>, ok: bool)
      modifies this`incoming
      ensures ok == (|old(Stream())| >= n)
      ensures ok ==> b == old(Stream())[..n] && Stream() == old(Stream())[n..]
    {
      b := [];
      while |b| < n
        invariant |b| <= n
        invariant old(Stream()) == b + Stream()
        decreases n - |b|, |incoming|
      {
        if incoming == [] {
          return b, false;
        }
        var part := Read(n - |b|);
        assert old(Stream()) == b + (part + Stream());
        b := b + part;
      }
      ok := true;
    }

    /** io.CopyN into a sink: drops exactly n bytes. */
    method Discard(n: nat) returns (ok: bool)
      modifies this`incoming
      ensures ok == (|old(Stream())| >= n)
      ensures ok ==> Stream() == old(Stream())[n..]
    {
      var b;
      b, ok := ReadFull(n);
    }
  }

  /** How the client ends. */
  datatype Outcome =
    | Connected
    | WriteFailed
    | ReadFailed
    | BadVersion
    | AuthRequired
    | AuthFailed
    | NoMethod
    | BadTarget
    | Refused(code: byte)
    | UnknownAddressType

  /** The proxy asks for credentials and there are some. */
  predicate Asked(s: seq<byte>, user: seq<byte>) {
    |s| >= 2 && s[0] == 5 && s[1] == 2 && user != []
  }

  /** The proxy lets the client go on to its request. */
  predicate Admitted(s: seq<byte>, user: seq<byte>) {
    (|s| >= 2 && s[0] == 5 && s[1] == 0) || (Asked(s, user) && |s| >= 4 && s[3] == 0)
  }

  /** The messages of a conversation as far as the writes went through. */
  function AtMost(messages: seq<seq<byte>>, n: nat): seq<seq<byte>> {
    if n < |messages| then messages[..n] else messages
  }

  /** What a reply to CONNECT amounts to. */
  function ReplyVerdict(s: seq<byte>): (r: Outcome)
    ensures r.Connected? <==> GrantLength(s).Some?
  {
    if |s| < 4 then ReadFailed
    else if s[0] != 5 then BadVersion
    else if s[1] != 0 then Refused(s[1])
    else if s[3] != 1 && s[3] != 3 && s[3] != 4 then UnknownAddressType
    else
      assert s[3..][0] == s[3];
      if GrantLength(s).Some? then Connected else ReadFailed
  }

  /** How many writes the client needs for a method. */
  function WritesNeeded(selected: byte): nat {
    if selected == 2 then 3 else 2
  }

  /** How the choice of a method ends; None when the client goes on to its request. */
  function MethodVerdict(s: seq<byte>, user: seq<byte>, writes: nat): Option<Outcome> {
    if writes < 1 then Some(WriteFailed)
    else if |s| < 2 then Some(ReadFailed)
    else if s[0] != 5 then Some(BadVersion)
    else if s[1] != 0 && s[1] != 2 then Some(NoMethod)
    else if s[1] == 0 then None
    else if user == [] then Some(AuthRequired)
    else if writes < 2 then Some(WriteFailed)
    else if |s| < 4 then Some(ReadFailed)
    else if s[3] != 0 then Some(AuthFailed)
    else None
  }

  /** How much of the stream the choice of a method takes. */
  function MethodLength(selected: byte): nat {
    if selected == 2 then 4 else 2
  }

  /** How the client ends, by the bytes the proxy sends in all and the writes the connection takes. */
  function Verdict(s: seq<byte>, user: seq<byte>, target: Option<Target>, writes: nat): Outcome {
    match MethodVerdict(s, user, writes)
    case Some(r) => r
    case None =>
      if !ValidTarget(target) then BadTarget
      else if writes < WritesNeeded(s[1]) then WriteFailed
      else ReplyVerdict(s[MethodLength(s[1])..])
  }

  /** The client connects exactly when the target is usable, the proxy's bytes are a grant by the RFCs up to
      the two bytes the client does not look at, and every write goes through. */
  lemma ConnectsIffGranted(s: seq<byte>, user: seq<byte>, target: Option<Target>, writes: nat)
    ensures Verdict(s, user, target, writes).Connected? <==>
            && target.Some? && target.value.port.Some? && 1 <= target.value.port.value <= 65535
            && RfcHandshakeLength(PutRight(s), user != []).Some?
            && writes >= (if s[1] == 0 then 2 else 3)
  {
    hide GrantLength, ReplyVerdict, RfcHandshakeLength, PutRight;
    GrantsUpToIgnoredBytes(s, user != []);
    PutRightKeeps(s);
  }

  lemma PutRightKeeps(s: seq<byte>)
    ensures RfcHandshakeLength(PutRight(s), true).Some? || RfcHandshakeLength(PutRight(s), false).Some? ==> |s| >= 2
  {
    hide RfcGrantLength;
  }

  /** The proxy's bytes from its reply to CONNECT on. */
  function Reply(s: seq<byte>): seq<byte>
    requires |s| >= 2 && (s[1] == 2 ==> |s| >= 4)
  {
    s[if s[1] == 2 then 4 else 2..]
  }

  /** What each failure means, told from the proxy's bytes and the writes that go through. */
  lemma FailuresExplained(s: seq<byte>, user: seq<byte>, target: Option<Target>, writes: nat)
    ensures var r := Verdict(s, user, target, writes);
      var usable := target.Some? && target.value.port.Some? && 1 <= target.value.port.value <= 65535;
      var greeted := writes >= 1 && |s| >= 2 && s[0] == 5;
      var asked := greeted && s[1] == 2 && user != [];
      var admitted := greeted && (s[1] == 0 || (asked && writes >= 2 && |s| >= 4 && s[3] == 0));
      var answered := admitted && usable && writes >= (if s[1] == 2 then 3 else 2) && |Reply(s)| >= 4;
      && (r.WriteFailed? <==>
            writes == 0 || (asked && writes == 1) || (admitted && usable && writes == if s[1] == 2 then 2 else 1))
      && (r.NoMethod? <==> greeted && s[1] != 0 && s[1] != 2)
      && (r.AuthRequired? <==> greeted && s[1] == 2 && user == [])
      && (r.AuthFailed? <==> asked && writes >= 2 && |s| >= 4 && s[3] != 0)
      && (r.BadTarget? <==> admitted && !usable)
      && (r.BadVersion? <==> (writes >= 1 && |s| >= 2 && s[0] != 5) || (answered && Reply(s)[0] != 5))
      && (r.Refused? <==> answered && Reply(s)[0] == 5 && Reply(s)[1] != 0)
      && (r.Refused? ==> r.code == Reply(s)[1])
      && (r.UnknownAddressType? <==>
            answered && Reply(s)[0] == 5 && Reply(s)[1] == 0 && Reply(s)[3] != 1 && Reply(s)[3] != 3 && Reply(s)[3] != 4)
  {
    hide GrantLength;
  }

  /** Reads the reply to CONNECT: the head, and then exactly the rest its address type asks for. */
  method ReadGrant(conn: Conn) returns (r: Outcome)
    modifies conn`incoming
    ensures r == ReplyVerdict(old(conn.Stream()))
    ensures r.Connected? ==> conn.Stream() == old(conn.Stream())[GrantLength(old(conn.Stream())).value..]
  {
    ghost var s := conn.Stream();
    var head, ok := conn.ReadFull(4);
    if !ok {
      return ReadFailed;
    }
    assert head == s[..4];
    if head[0] != 5 {
      return BadVersion;
    }
    if head[1] != 0 {
      return Refused(head[1]);
    }
    ghost var rest := conn.Stream();
    assert rest == s[4..] && s[3..][0] == head[3];
    if head[3] == 1 {
      ok := conn.Discard(4 + 2);
      GrantRest(s, 6);
    } else if head[3] == 4 {
      ok := conn.Discard(16 + 2);
      GrantRest(s, 18);
    } else if head[3] == 3 {
      var lenByte;
      lenByte, ok := conn.ReadFull(1);
      if !ok {
        return ReadFailed;
      }
      assert lenByte[0] == s[4];
      assert conn.Stream() == s[5..];
      ok := conn.Discard(lenByte[0] as int + 2);
      GrantRest(s, 1 + lenByte[0] as int + 2);
      assert ok ==> conn.Stream() == s[4..][1 + lenByte[0] as int + 2..];
    } else {
      return UnknownAddressType;
    }
    if !ok {
      return ReadFailed;
    }
    return Connected;
  }

  /** How much of the stream the reply takes after its head. */
  lemma GrantRest(s: seq<byte>, n: nat)
    requires |s| >= 4 && s[0] == 5 && s[1] == 0
    requires || (s[3] == 1 && n == 6) || (s[3] == 4 && n == 18)
             || (s[3] == 3 && |s| >= 5 && n == 1 + s[4] as int + 2)
    ensures GrantLength(s) == if |s| - 4 >= n then Some(4 + n) else None
    ensures |s| - 4 >= n ==> s[4..][n..] == s[4 + n..]
  {
    assert s[3..][0] == s[3];
    if s[3] == 3 {
      assert s[3..][1] == s[4];
    }
  }

  /** The greeting, the method the proxy selects, and the credentials if it asks for them. */
  method ChooseMethod(conn: Conn, user: seq<byte>, pass: seq<byte>) returns (r: Option<Outcome>)
    modifies conn
    requires conn.written == []
    ensures r == MethodVerdict(old(conn.Stream()), user, old(conn.writesLeft))
    ensures var s := old(conn.Stream());
      conn.written == AtMost([Greeting(user)] + if Asked(s, user) then [AuthMessage(user, pass)] else [], old(conn.writesLeft))
    ensures r.None? ==> var s := old(conn.Stream());
      && Admitted(s, user)
      && conn.Stream() == s[if s[1] == 2 then 4 else 2..]
      && conn.written == (if s[1] == 2 then [Greeting(user), AuthMessage(user, pass)] else [Greeting(user)])
      && conn.writesLeft == old(conn.writesLeft) - |conn.written|
    ensures r.Some? && old(conn.writesLeft) >= 2 ==> !Admitted(old(conn.Stream()), user)
  {
    hide Concat, Greeting, AuthMessage;
    ghost var s := conn.Stream();
    var ok := conn.Write(Greeting(user));
    if !ok {
      return Some(WriteFailed);
    }
    var reply;
    reply, ok := conn.ReadFull(2);
    if !ok {
      return Some(ReadFailed);
    }
    if reply[0] != 5 {
      return Some(BadVersion);
    }
    if reply[1] == 0 {
      return None;
    }
    if reply[1] != 2 {
      return Some(NoMethod);
    }
    if user == [] {
      return Some(AuthRequired);
    }
    ok := conn.Write(AuthMessage(user, pass));
    if !ok {
      return Some(WriteFailed);
    }
    var rep;
    rep, ok := conn.ReadFull(2);
    if !ok {
      return Some(ReadFailed);
    }
    assert rep[1] == s[3];
    if rep[1] != 0 {
      return Some(AuthFailed);
    }
    assert s[2..][2..] == s[4..];
    return None;
  }

  /** The client.  However it ends it has written the conversation as far as the writes went through; when it
      connects it has consumed the proxy's replies to the last byte and not one byte more, however they were
      chunked. */
  method Connect(conn: Conn, target: Option<Target>, user: seq<byte>, pass: seq<byte>) returns (r: Outcome)
    modifies conn
    requires conn.written == []
    ensures r == Verdict(old(conn.Stream()), user, target, old(conn.writesLeft))
    ensures var s := old(conn.Stream());
      var usable := target.Some? && target.value.port.Some? && 1 <= target.value.port.value <= 65535;
      var asked := |s| >= 2 && s[0] == 5 && s[1] == 2 && user != [];
      var admitted := |s| >= 2 && s[0] == 5 && (s[1] == 0 || (asked && |s| >= 4 && s[3] == 0));
      conn.written == AtMost([Greeting(user)] + (if asked then [AuthMessage(user, pass)] else [])
                             + (if admitted && usable then [Request(target.value.host, target.value.port.value)] else []),
                             old(conn.writesLeft))
    ensures r.Connected? ==> var s := old(conn.Stream());
      && conn.written == (if s[1] == 2 then [Greeting(user), AuthMessage(user, pass)] else [Greeting(user)])
                         + [Request(target.value.host, target.value.port.value)]
      && conn.Stream() == s[HandshakeLength(s, user != []).value..]
  {
    hide ReplyVerdict, GrantLength, Concat, Greeting, AuthMessage, Request;
    ghost var s := conn.Stream();
    var early := ChooseMethod(conn, user, pass);
    if early.Some? {
      return early.value;
    }
    if target.None? || target.value.port.None? || target.value.port.value < 1 || target.value.port.value > 65535 {
      return BadTarget;
    }
    var ok := conn.Write(Request(target.value.host, target.value.port.value));
    if !ok {
      return WriteFailed;
    }
    ghost var n := MethodLength(s[1]);
    r := ReadGrant(conn);
    if r.Connected? {
      var k := GrantLength(s[n..]).value;
      assert s[n..][k..] == s[n + k..];
    }
  }

  /** What a grant leaves on the stream is exactly what the proxy wrote after it: the tunnelled bytes. */
  lemma TunnelIsUntouched(reply: seq<byte>, tunnel: seq<byte>, hasUser: bool)
    requires HandshakeLength(reply, hasUser) == Some(|reply|)
    ensures HandshakeLength(reply + tunnel, hasUser) == Some(|reply|)
    ensures (reply + tunnel)[|reply|..] == tunnel
  {
    var k := if reply[1] == 0 then 2 else 4;
    assert (reply + tunnel)[k..] == reply[k..] + tunnel;
    GrantExtends(reply[k..], tunnel);
  }

  lemma GrantExtends(b: seq<byte>, more: seq<byte>)
    requires GrantLength(b).Some?
    ensures GrantLength(b + more) == GrantLength(b)
  {
    var t, u := b[3..], (b + more)[3..];
    assert u == t + more;
    match t[0] as int
    case 1 => assert u[5..] == t[5..] + more;
    case 4 => assert u[17..] == t[17..] + more;
    case _ =>
      var k := 2 + t[1] as int;
      assert u[k..] == t[k..] + more;
  }
}
