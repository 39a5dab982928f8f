/** The SOCKS5 messages that the gateway and the worker exchange (RFC 1928). */
module Socks {
  import opened Wrappers
  import opened Addresses

  type Bytes = seq<Byte>

  const SOCKS_VERSION: Byte := 5
  const METHOD_NONE: Byte := 0
  const METHOD_PASSWORD: Byte := 2
  const METHOD_UNACCEPTABLE: Byte := 0xff
  const COMMAND_CONNECT: Byte := 1
  const ADDRESS_IPV4: Byte := 1
  const ADDRESS_DOMAIN: Byte := 3
  const ADDRESS_IPV6: Byte := 4

  datatype Error = Eof | Protocol | CommandUnsupported | ForbiddenTarget | Authentication

  datatype Target = Address(ip: Ipv4, port: Port) | Domain(name: Bytes, port: Port)

  // ----- numbers and text -----

  function BigEndian(n: nat): (r: Bytes)
    requires n < 0x1_0000
    ensures |r| == 2 && FromBigEndian(r[0], r[1]) == n
  {
    [n / 256, n % 256]
  }

  function FromBigEndian(high: Byte, low: Byte): (n: nat)
    ensures n < 0x1_0000
  {
    high * 256 + low
  }

  lemma BigEndianInverse(high: Byte, low: Byte)
    ensures BigEndian(FromBigEndian(high, low)) == [high, low]
  {
  }

  function Octets(ip: Ipv4): Bytes { [ip.a, ip.b, ip.c, ip.d] }

  predicate IsAscii(s: Bytes) { forall i :: 0 <= i < |s| ==> s[i] < 0x80 }

  predicate IsTail(b: Byte) { 0x80 <= b < 0xc0 }

  /** The length of the well-formed UTF-8 sequence at the front, or 0. */
  function CharLength(s: Bytes): (k: nat)
    ensures k <= |s|
  {
    if s == [] then 0
    else if s[0] < 0x80 then 1
    else if |s| >= 2 && 0xc2 <= s[0] < 0xe0 && IsTail(s[1]) then 2
    else if |s| >= 3 && 0xe0 <= s[0] < 0xf0 && IsTail(s[1]) && IsTail(s[2])
            && (s[0] == 0xe0 ==> s[1] >= 0xa0) && (s[0] == 0xed ==> s[1] < 0xa0) then 3
    else if |s| >= 4 && 0xf0 <= s[0] < 0xf5 && IsTail(s[1]) && IsTail(s[2]) && IsTail(s[3])
            && (s[0] == 0xf0 ==> s[1] >= 0x90) && (s[0] == 0xf4 ==> s[1] < 0x90) then 4
    else 0
  }

  predicate IsUtf8(s: Bytes)
    decreases |s|
  {
    s == [] || (CharLength(s) > 0 && IsUtf8(s[CharLength(s)..]))
  }

  lemma {:induction false} AsciiIsUtf8(s: Bytes)
    requires IsAscii(s)
    ensures IsUtf8(s)
    decreases |s|
  {
    if s != [] { AsciiIsUtf8(s[1..]); }
  }

  // ----- which targets are allowed -----

  const DOT: Byte := 0x2e
  const LOCALHOST: Bytes := [0x6c, 0x6f, 0x63, 0x61, 0x6c, 0x68, 0x6f, 0x73, 0x74]
  const LOCAL: Bytes := [0x6c, 0x6f, 0x63, 0x61, 0x6c]
  const INTERNAL: Bytes := [0x69, 0x6e, 0x74, 0x65, 0x72, 0x6e, 0x61, 0x6c]

  function Lower(s: Bytes): (r: Bytes)
    ensures |r| == |s|
  {
    seq(|s|, i requires 0 <= i < |s| => if 0x41 <= s[i] <= 0x5a then s[i] + 32 else s[i])
  }

  predicate EndsWith(s: Bytes, suffix: Bytes) { |s| >= |suffix| && s[|s| - |suffix|..] == suffix }

  /** The last label after a dot is `suffix`. */
  predicate HasDomainSuffix(s: Bytes, suffix: Bytes) { EndsWith(s, [DOT] + suffix) && DOT !in suffix }

  function FirstDot(s: Bytes): (k: nat)
    ensures k <= |s| && (k < |s| ==> s[k] == DOT) && forall i :: 0 <= i < k ==> s[i] != DOT
  {
    if s == [] || s[0] == DOT then 0 else 1 + FirstDot(s[1..])
  }

  /** `split('.')`. */
  function Labels(s: Bytes): (r: seq<Bytes>)
    ensures r != []
    decreases |s|
  {
    var k := FirstDot(s);
    if k == |s| then [s] else [s[..k]] + Labels(s[k + 1..])
  }

  predicate IsAllowedDomain(name: Bytes) {
    var lower := Lower(name);
    && |name| <= 253 && IsAscii(name)
    && lower != LOCALHOST && !EndsWith(lower, [DOT] + LOCALHOST)
    && !HasDomainSuffix(lower, LOCAL) && !HasDomainSuffix(lower, INTERNAL)
    && forall i :: 0 <= i < |Labels(name)| ==> Labels(name)[i] != []
  }

  predicate IsAllowed(t: Target) {
    t.port != 0 && match t case Address(ip, _) => IsPublic(ip) case Domain(name, _) => IsAllowedDomain(name)
  }

  // ----- requests -----

  function EncodeRequest(t: Target): Result<Bytes, Error> {
    match t
    case Address(ip, port) =>
      Success([SOCKS_VERSION, COMMAND_CONNECT, 0, ADDRESS_IPV4] + Octets(ip) + BigEndian(port))
    case Domain(name, port) =>
      if |name| >= 256 then Failure(Protocol)
      else Success([SOCKS_VERSION, COMMAND_CONNECT, 0, ADDRESS_DOMAIN, |name|] + name + BigEndian(port))
  }

  function Take(s: Bytes, n: nat): Result<(Bytes, Bytes), Error> {
    if |s| < n then Failure(Eof) else Success((s[..n], s[n..]))
  }

  function DecodeAddress(s: Bytes): Result<(Target, Bytes), Error> {
    var (head, rest) :- Take(s, 6);
    Success((Address(Ipv4(head[0], head[1], head[2], head[3]), FromBigEndian(head[4], head[5])), rest))
  }

  function DecodeDomain(s: Bytes): Result<(Target, Bytes), Error> {
    var (length, s1) :- Take(s, 1);
    if length[0] == 0 then Failure(Protocol)
    else
      var (name, s2) :- Take(s1, length[0]);
      if !IsUtf8(name) then Failure(Protocol)
      else
        var (port, rest) :- Take(s2, 2);
        Success((Domain(name, FromBigEndian(port[0], port[1])), rest))
  }

  function DecodeRequest(s: Bytes): Result<(Target, Bytes), Error> {
    var (head, body) :- Take(s, 4);
    if head[0] != SOCKS_VERSION || head[2] != 0 then Failure(Protocol)
    else if head[1] != COMMAND_CONNECT then Failure(CommandUnsupported)
    else if head[3] == ADDRESS_IPV6 then Failure(ForbiddenTarget)
    else if head[3] != ADDRESS_IPV4 && head[3] != ADDRESS_DOMAIN then Failure(Protocol)
    else
      var (t, rest) :- if head[3] == ADDRESS_IPV4 then DecodeAddress(body) else DecodeDomain(body);
      if IsAllowed(t) then Success((t, rest)) else Failure(ForbiddenTarget)
  }

  lemma AllowedIsEncodable(t: Target)
    requires IsAllowed(t)
    ensures EncodeRequest(t).Success?
  {
  }

  lemma DomainIsNotEmpty(name: Bytes)
    requires IsAllowedDomain(name)
    ensures name != []
  {
    assert Labels(name)[0] != [];
  }

  lemma TakeIsHead(head: Bytes, body: Bytes)
    ensures Take(head + body, |head|) == Success((head, body))
  {
    assert (head + body)[..|head|] == head && (head + body)[|head|..] == body;
  }

  lemma TakeSplits(s: Bytes, n: nat)
    requires Take(s, n).Success?
    ensures |Take(s, n).value.0| == n && s == Take(s, n).value.0 + Take(s, n).value.1
  {
  }

  lemma AddressRoundTrip(ip: Ipv4, port: Port, rest: Bytes)
    ensures DecodeAddress(Octets(ip) + BigEndian(port) + rest) == Success((Address(ip, port), rest))
  {
    TakeIsHead(Octets(ip) + BigEndian(port), rest);
  }

  lemma {:induction false} DomainRoundTrip(name: Bytes, port: Port, rest: Bytes)
    requires 0 < |name| < 256 && IsUtf8(name)
    ensures DecodeDomain([|name|] + (name + (BigEndian(port) + rest))) == Success((Domain(name, port), rest))
  {
    TakeIsHead([|name|], name + (BigEndian(port) + rest));
    TakeIsHead(name, BigEndian(port) + rest);
    TakeIsHead(BigEndian(port), rest);
  }

  /** The worker reads back exactly what the gateway sent, and leaves exactly what follows. */
  lemma RequestRoundTrip(t: Target, rest: Bytes)
    requires IsAllowed(t)
    ensures EncodeRequest(t).Success? && DecodeRequest(EncodeRequest(t).value + rest) == Success((t, rest))
  {
    EncodedParts(t, rest);
    match t
    case Address(ip, port) =>
      TakeIsHead([SOCKS_VERSION, COMMAND_CONNECT, 0, ADDRESS_IPV4], Octets(ip) + BigEndian(port) + rest);
      AddressRoundTrip(ip, port, rest);
    case Domain(name, port) =>
      TakeIsHead([SOCKS_VERSION, COMMAND_CONNECT, 0, ADDRESS_DOMAIN], [|name|] + (name + (BigEndian(port) + rest)));
      DomainIsNotEmpty(name);
      AsciiIsUtf8(name);
      DomainRoundTrip(name, port, rest);
  }

  lemma AddressIsCanonical(body: Bytes, t: Target, rest: Bytes)
    requires DecodeAddress(body) == Success((t, rest))
    ensures t.Address? && body == Octets(t.ip) + BigEndian(t.port) + rest
  {
    TakeSplits(body, 6);
    var head := Take(body, 6).value.0;
    BigEndianInverse(head[4], head[5]);
    assert head == Octets(t.ip) + BigEndian(t.port);
  }

  lemma DomainIsCanonical(body: Bytes, t: Target, rest: Bytes)
    requires DecodeDomain(body) == Success((t, rest))
    ensures t.Domain? && |t.name| < 256 && body == [|t.name|] + (t.name + (BigEndian(t.port) + rest))
  {
    TakeSplits(body, 1);
    var (length, s1) := Take(body, 1).value;
    TakeSplits(s1, length[0]);
    var (name, s2) := Take(s1, length[0]).value;
    TakeSplits(s2, 2);
    var port := Take(s2, 2).value.0;
    BigEndianInverse(port[0], port[1]);
    assert length == [|name|] && port == BigEndian(t.port);
  }

  /** Whatever bytes a client sends, an accepted request is an allowed target, and its bytes are
      the only encoding of that target. */
  lemma AcceptedRequestIsCanonical(s: Bytes, t: Target, rest: Bytes)
    requires DecodeRequest(s) == Success((t, rest))
    ensures IsAllowed(t) && EncodeRequest(t).Success? && s == EncodeRequest(t).value + rest
  {
    TakeSplits(s, 4);
    var (head, body) := Take(s, 4).value;
    assert head == [SOCKS_VERSION, COMMAND_CONNECT, 0, head[3]];
    if head[3] == ADDRESS_IPV4 { AddressIsCanonical(body, t, rest); } else { DomainIsCanonical(body, t, rest); }
    EncodedParts(t, rest);
  }

  lemma EncodedParts(t: Target, rest: Bytes)
    requires EncodeRequest(t).Success?
    ensures t.Address? ==> EncodeRequest(t).value + rest
                           == [SOCKS_VERSION, COMMAND_CONNECT, 0, ADDRESS_IPV4] + (Octets(t.ip) + BigEndian(t.port) + rest)
    ensures t.Domain? ==> EncodeRequest(t).value + rest
                          == [SOCKS_VERSION, COMMAND_CONNECT, 0, ADDRESS_DOMAIN] + ([|t.name|] + (t.name + (BigEndian(t.port) + rest)))
  {
  }

  // ----- replies -----

  datatype Bound = Unknown | V6 | V4(ip: Ipv4, port: Port)

  function EncodeReply(reply: Byte, bound: Bound): Bytes {
    [SOCKS_VERSION, reply, 0, ADDRESS_IPV4]
    + if bound.V4? then Octets(bound.ip) + BigEndian(bound.port) else [0, 0, 0, 0, 0, 0]
  }

  function DecodeReply(s: Bytes): Result<(Byte, Bytes), Error> {
    var (head, body) :- Take(s, 4);
    if head[0] != SOCKS_VERSION || head[2] != 0 then Failure(Protocol)
    else if head[3] == ADDRESS_IPV4 then
      var (_, rest) :- Take(body, 6);
      Success((head[1], rest))
    else if head[3] == ADDRESS_DOMAIN then
      var (length, body) :- Take(body, 1);
      var (_, rest) :- Take(body, length[0] as int + 2);
      Success((head[1], rest))
    else if head[3] == ADDRESS_IPV6 then
      var (_, rest) :- Take(body, 18);
      Success((head[1], rest))
    else Failure(Protocol)
  }

  /** The gateway consumes exactly the worker's reply, so that relayed data starts aligned. */
  lemma ReplyRoundTrip(reply: Byte, bound: Bound, rest: Bytes)
    ensures DecodeReply(EncodeReply(reply, bound) + rest) == Success((reply, rest))
  {
    var s := EncodeReply(reply, bound) + rest;
    assert s[4..][6..] == rest;
  }

  // ----- the handshake between gateway and worker -----

  /** `negotiate_method`: the selected method, the reply and what is left, before any password. */
  function Negotiate(s: Bytes, hasCredentials: bool): Result<(Byte, Bytes), Error> {
    var (head, body) :- Take(s, 2);
    if head[0] != SOCKS_VERSION || head[1] == 0 || head[1] > 16 then Failure(Protocol)
    else
      var (methods, rest) :- Take(body, head[1]);
      if hasCredentials && METHOD_PASSWORD in methods then Success((METHOD_PASSWORD, rest))
      else if !hasCredentials && METHOD_NONE in methods then Success((METHOD_NONE, rest))
      else Failure(Authentication)
  }

  /** What a worker, which has no credentials, understands of a client's first bytes. */
  function WorkerReads(s: Bytes): Result<(Target, Bytes), Error> {
    var (_, rest) :- Negotiate(s, false);
    DecodeRequest(rest)
  }

  lemma GreetingParts(request: Bytes, payload: Bytes)
    ensures [SOCKS_VERSION, 1, METHOD_NONE] + request + payload == [SOCKS_VERSION, 1] + ([METHOD_NONE] + (request + payload))
  {
  }

  lemma NoneIsNegotiated(rest: Bytes)
    ensures Negotiate([SOCKS_VERSION, 1] + ([METHOD_NONE] + rest), false) == Success((METHOD_NONE, rest))
  {
    TakeIsHead([SOCKS_VERSION, 1], [METHOD_NONE] + rest);
    TakeIsHead([METHOD_NONE], rest);
  }

  /** A worker accepts every request that the gateway accepted and forwards, and sees the client's
      data from its first byte. */
  lemma WorkerAcceptsForwardedRequest(s: Bytes, t: Target, payload: Bytes)
    requires DecodeRequest(s) == Success((t, payload))
    ensures EncodeRequest(t).Success?
    ensures WorkerReads([SOCKS_VERSION, 1, METHOD_NONE] + EncodeRequest(t).value + payload) == Success((t, payload))
  {
    AcceptedRequestIsCanonical(s, t, payload);
    RequestRoundTrip(t, payload);
    GreetingParts(EncodeRequest(t).value, payload);
    NoneIsNegotiated(EncodeRequest(t).value + payload);
  }

  // ----- the readers as they run -----

  /** The unread part of a connection. */
  class ByteStream {
    var pending: Bytes

    constructor (bytes: Bytes)
      ensures pending == bytes
    {
      pending := bytes;
    }

    method ReadExact(n: nat) returns (r: Result<Bytes, Error>)
      modifies this
      ensures match Take(old(pending), n)
              case Success((head, rest)) => r == Success(head) && pending == rest
              case Failure(e) => r == Failure(e) && pending == []
    {
      if |pending| < n {
        pending := [];
        return Failure(Eof);
      }
      r := Success(pending[..n]);
      pending := pending[n..];
    }
  }

  method ReadRequest(stream: ByteStream) returns (r: Result<Target, Error>)
    modifies stream
    ensures match DecodeRequest(old(stream.pending))
            case Success((t, rest)) => r == Success(t) && stream.pending == rest
            case Failure(e) => r == Failure(e)
  {
    var head :- stream.ReadExact(4);
    if head[0] != SOCKS_VERSION || head[2] != 0 { return Failure(Protocol); }
    if head[1] != COMMAND_CONNECT { return Failure(CommandUnsupported); }
    var t;
    if head[3] == ADDRESS_IPV4 {
      var address :- stream.ReadExact(6);
      t := Address(Ipv4(address[0], address[1], address[2], address[3]), FromBigEndian(address[4], address[5]));
    } else if head[3] == ADDRESS_DOMAIN {
      var length :- stream.ReadExact(1);
      if length[0] == 0 { return Failure(Protocol); }
      var name :- stream.ReadExact(length[0]);
      if !IsUtf8(name) { return Failure(Protocol); }
      var port :- stream.ReadExact(2);
      t := Domain(name, FromBigEndian(port[0], port[1]));
    } else {
      return Failure(if head[3] == ADDRESS_IPV6 then ForbiddenTarget else Protocol);
    }
    r := if IsAllowed(t) then Success(t) else Failure(ForbiddenTarget);
  }

  method ReadReply(stream: ByteStream) returns (r: Result<Byte, Error>)
    modifies stream
    ensures match DecodeReply(old(stream.pending))
            case Success((reply, rest)) => r == Success(reply) && stream.pending == rest
            case Failure(e) => r == Failure(e)
  {
    var head :- stream.ReadExact(4);
    if head[0] != SOCKS_VERSION || head[2] != 0 { return Failure(Protocol); }
    if head[3] == ADDRESS_IPV4 {
      var _ :- stream.ReadExact(6);
    } else if head[3] == ADDRESS_DOMAIN {
      var length :- stream.ReadExact(1);
      var _ :- stream.ReadExact(length[0] as int + 2);
    } else if head[3] == ADDRESS_IPV6 {
      var _ :- stream.ReadExact(18);
    } else {
      return Failure(Protocol);
    }
    r := Success(head[1]);
  }
}
