/**
 What the SOCKS5 front accepts: `negotiate` in `src/socks5.rs`, as a function of the bytes the peer
 sends, and the encoder it must invert. The wire formats are those of sections 3 to 6 of RFC 1928
 and section 2 of RFC 1929. Whether a name is UTF-8 is a parameter.
 */
module Socks5 {
  import opened Bytes

  const VERSION: Byte := 5
  const METHOD_PASSWORD: Byte := 2
  const NONE_ACCEPTABLE: Byte := 0xFF
  const CONNECT: Byte := 1
  const ATYP_IPV4: Byte := 1
  const ATYP_DOMAIN: Byte := 3
  const ATYP_IPV6: Byte := 4

  datatype Credentials = Credentials(username: seq<Byte>, password: seq<Byte>)

  /** What `Socks5Credentials::new` lets through. */
  predicate Usable(c: Credentials) {
    0 < |c.username| <= 255 && 0 < |c.password| <= 255
  }

  datatype Host = V4(octets: seq<Byte>) | V6(octets: seq<Byte>) | Name(name: seq<Byte>)

  datatype Destination = Destination(host: Host, port: nat)

  datatype Failure =
    | Eof
    | NotSocks5
    | NoMethods
    | AuthenticationRequired
    | InvalidAuthentication
    | AuthenticationFailed
    | RequestNotSocks5
    | BadReservedByte
    | NotConnect
    | EmptyName
    | NotUtf8
    | BadAddressType

  /**
   Where a part of the conversation ends: what it yields or why it stops, the bytes it has not
   read, and what was sent to the peer.
   */
  datatype Step<+T> =
    | Go(value: T, rest: seq<Byte>, sent: seq<Byte>)
    | Stop(failure: Failure, rest: seq<Byte>, sent: seq<Byte>)

  function Reply(code: Byte): seq<Byte> { [VERSION, code, 0, ATYP_IPV4, 0, 0, 0, 0, 0, 0] }

  /** The next `n` bytes. At the end of the stream a short read consumes what there is. */
  function Take(input: seq<Byte>, n: nat): (r: Step<seq<Byte>>)
    ensures r.Go? <==> n <= |input|
    ensures r.Go? ==> |r.value| == n && input == r.value + r.rest && r.sent == []
    ensures r.Stop? ==> r == Stop(Eof, [], [])
  {
    if n <= |input| then Go(input[..n], input[n..], []) else Stop(Eof, [], [])
  }

  /** A length byte and that many bytes. */
  function TakeCounted(input: seq<Byte>): Step<seq<Byte>> {
    var length := Take(input, 1);
    if length.Stop? then length else Take(length.rest, length.value[0])
  }

  /** The method negotiation; yields the methods offered. */
  function Greet(input: seq<Byte>): Step<seq<Byte>> {
    var greeting := Take(input, 2);
    if greeting.Stop? then greeting
    else if greeting.value[0] != VERSION then Stop(NotSocks5, greeting.rest, [])
    else if greeting.value[1] == 0 then Stop(NoMethods, greeting.rest, [VERSION, NONE_ACCEPTABLE])
    else
      var methods := Take(greeting.rest, greeting.value[1]);
      if methods.Stop? then methods
      else if METHOD_PASSWORD !in methods.value then
        Stop(AuthenticationRequired, methods.rest, [VERSION, NONE_ACCEPTABLE])
      else Go(methods.value, methods.rest, [VERSION, METHOD_PASSWORD])
  }

  /** The password exchange; yields the credentials the peer gave. */
  function Authenticate(c: Credentials, input: seq<Byte>): Step<Credentials> {
    var head := Take(input, 2);
    if head.Stop? then Stop(Eof, [], [])
    else if head.value[0] != 1 || head.value[1] == 0 then Stop(InvalidAuthentication, head.rest, [1, 1])
    else
      var username := Take(head.rest, head.value[1]);
      if username.Stop? then Stop(Eof, [], [])
      else
        var password := TakeCounted(username.rest);
        if password.Stop? then Stop(Eof, [], [])
        else if username.value != c.username || password.value != c.password then
          Stop(AuthenticationFailed, password.rest, [1, 1])
        else Go(c, password.rest, [1, 0])
  }

  /** The address of a request, after its type byte. */
  function Address(atyp: Byte, utf8: seq<Byte> -> bool, input: seq<Byte>): Step<Host> {
    if atyp == ATYP_IPV4 || atyp == ATYP_IPV6 then
      var octets := Take(input, if atyp == ATYP_IPV4 then 4 else 16);
      if octets.Stop? then Stop(Eof, [], [])
      else Go(if atyp == ATYP_IPV4 then V4(octets.value) else V6(octets.value), octets.rest, [])
    else if atyp == ATYP_DOMAIN then
      var length := Take(input, 1);
      if length.Stop? then Stop(Eof, [], [])
      else if length.value[0] == 0 then Stop(EmptyName, length.rest, Reply(1))
      else
        var name := Take(length.rest, length.value[0]);
        if name.Stop? then Stop(Eof, [], [])
        else if !utf8(name.value) then Stop(NotUtf8, name.rest, Reply(1))
        else Go(Name(name.value), name.rest, [])
    else Stop(BadAddressType, input, Reply(8))
  }

  /** The CONNECT request. */
  function Request(utf8: seq<Byte> -> bool, input: seq<Byte>): Step<Destination> {
    var head := Take(input, 4);
    if head.Stop? then Stop(Eof, [], [])
    else if head.value[0] != VERSION then Stop(RequestNotSocks5, head.rest, [])
    else if head.value[2] != 0 then Stop(BadReservedByte, head.rest, [])
    else if head.value[1] != CONNECT then Stop(NotConnect, head.rest, Reply(7))
    else
      var host := Address(head.value[3], utf8, head.rest);
      if host.Stop? then Stop(host.failure, host.rest, host.sent)
      else
        var port := Take(host.rest, 2);
        if port.Stop? then Stop(Eof, [], [])
        else Go(Destination(host.value, BigEndian(port.value[0], port.value[1])), port.rest, [])
  }

  function Negotiate(c: Credentials, utf8: seq<Byte> -> bool, input: seq<Byte>): Step<Destination> {
    var greeted := Greet(input);
    if greeted.Stop? then Stop(greeted.failure, greeted.rest, greeted.sent)
    else
      var known := Authenticate(c, greeted.rest);
      if known.Stop? then Stop(known.failure, known.rest, greeted.sent + known.sent)
      else
        var asked := Request(utf8, known.rest);
        asked.(sent := greeted.sent + known.sent + asked.sent)
  }

  // ---------------------------------------------------------------- the encoder

  /** An offer of 1 to 255 methods, the password method among them. */
  predicate ValidMethods(methods: seq<Byte>) {
    0 < |methods| <= 255 && METHOD_PASSWORD in methods
  }

  predicate ValidHost(utf8: seq<Byte> -> bool, host: Host) {
    match host
    case V4(octets) => |octets| == 4
    case V6(octets) => |octets| == 16
    case Name(name) => 0 < |name| <= 255 && utf8(name)
  }

  predicate ValidDestination(utf8: seq<Byte> -> bool, d: Destination) {
    ValidHost(utf8, d.host) && d.port < 0x1_0000
  }

  function Counted(bytes: seq<Byte>): seq<Byte>
    requires |bytes| <= 255
  {
    [|bytes| as Byte] + bytes
  }

  function EncodeGreeting(methods: seq<Byte>): seq<Byte>
    requires |methods| <= 255
  {
    [VERSION] + Counted(methods)
  }

  function EncodeCredentials(c: Credentials): seq<Byte>
    requires Usable(c)
  {
    [1] + Counted(c.username) + Counted(c.password)
  }

  /** The type byte of an address, and what follows it. */
  function AddressType(host: Host): Byte {
    match host
    case V4(_) => ATYP_IPV4
    case V6(_) => ATYP_IPV6
    case Name(_) => ATYP_DOMAIN
  }

  function AddressBody(host: Host): seq<Byte>
    requires host.Name? ==> |host.name| <= 255
  {
    match host
    case V4(octets) => octets
    case V6(octets) => octets
    case Name(name) => Counted(name)
  }

  function EncodeRequest(d: Destination): seq<Byte>
    requires (d.host.Name? ==> |d.host.name| <= 255) && d.port < 0x1_0000
  {
    [VERSION, CONNECT, 0, AddressType(d.host)] + AddressBody(d.host) + [d.port / 256, d.port % 256]
  }

  function Encode(methods: seq<Byte>, c: Credentials, utf8: seq<Byte> -> bool, d: Destination): seq<Byte>
    requires ValidMethods(methods) && Usable(c) && ValidDestination(utf8, d)
  {
    EncodeGreeting(methods) + EncodeCredentials(c) + EncodeRequest(d)
  }

  // ---------------------------------------------------------------- each part inverts its encoder

  /** What was read and what remains determine each other. */
  lemma TakeSplit(head: seq<Byte>, tail: seq<Byte>)
    ensures Take(head + tail, |head|) == Go(head, tail, [])
  {
    assert (head + tail)[..|head|] == head && (head + tail)[|head|..] == tail;
  }

  lemma TakeCountedExactly(input: seq<Byte>, bytes: seq<Byte>, rest: seq<Byte>)
    ensures TakeCounted(input) == Go(bytes, rest, []) <==> |bytes| <= 255 && input == Counted(bytes) + rest
  {
    if |bytes| <= 255 && input == Counted(bytes) + rest {
      assert input == [|bytes| as Byte] + (bytes + rest);
      TakeSplit([|bytes| as Byte], bytes + rest);
      TakeSplit(bytes, rest);
    }
    if TakeCounted(input) == Go(bytes, rest, []) {
      var length := Take(input, 1);
      assert length.value == [|bytes| as Byte];
      assert input == Counted(bytes) + rest;
    }
  }

  lemma GreetInverts(methods: seq<Byte>, rest: seq<Byte>)
    requires ValidMethods(methods)
    ensures Greet(EncodeGreeting(methods) + rest) == Go(methods, rest, [VERSION, METHOD_PASSWORD])
  {
    var head := [VERSION, |methods| as Byte];
    assert EncodeGreeting(methods) + rest == head + (methods + rest);
    TakeSplit(head, methods + rest);
    TakeSplit(methods, rest);
  }

  lemma GreetOnly(input: seq<Byte>)
    requires Greet(input).Go?
    ensures ValidMethods(Greet(input).value) && Greet(input).sent == [VERSION, METHOD_PASSWORD]
    ensures input == EncodeGreeting(Greet(input).value) + Greet(input).rest
  {
    var greeting := Take(input, 2);
    var methods := Take(greeting.rest, greeting.value[1]);
    assert greeting.value == [VERSION, |methods.value| as Byte];
    assert input == greeting.value + (methods.value + methods.rest);
  }

  lemma CredentialsAssembled(c: Credentials, rest: seq<Byte>)
    requires Usable(c)
    ensures EncodeCredentials(c) + rest == [1, |c.username| as Byte] + (c.username + (Counted(c.password) + rest))
  {
  }

  /** Well-formed credentials are read as such, and accepted exactly when they are the expected ones. */
  lemma AuthenticateInverts(c: Credentials, given: Credentials, rest: seq<Byte>)
    requires Usable(given)
    ensures Authenticate(c, EncodeCredentials(given) + rest) ==
            if given == c then Go(c, rest, [1, 0]) else Stop(AuthenticationFailed, rest, [1, 1])
  {
    var head := [1, |given.username| as Byte];
    var tail := Counted(given.password) + rest;
    CredentialsAssembled(given, rest);
    TakeSplit(head, given.username + tail);
    TakeSplit(given.username, tail);
    TakeCountedExactly(tail, given.password, rest);
  }

  /** What an accepted exchange read, part by part. */
  lemma AuthenticateParts(c: Credentials, input: seq<Byte>) returns (afterHead: seq<Byte>, afterName: seq<Byte>)
    requires Authenticate(c, input).Go?
    ensures 0 < |c.username| <= 255 && input == [1, |c.username| as Byte] + afterHead
    ensures afterHead == c.username + afterName
    ensures TakeCounted(afterName) == Go(c.password, Authenticate(c, input).rest, [])
    ensures Authenticate(c, input).value == c && Authenticate(c, input).sent == [1, 0]
  {
    var head := Take(input, 2);
    afterHead := head.rest;
    assert head.value == [head.value[0], head.value[1]];
    afterName := Take(head.rest, head.value[1]).rest;
  }

  lemma AuthenticateOnly(c: Credentials, input: seq<Byte>)
    requires Usable(c) && Authenticate(c, input).Go?
    ensures Authenticate(c, input) == Go(c, Authenticate(c, input).rest, [1, 0])
    ensures input == EncodeCredentials(c) + Authenticate(c, input).rest
  {
    var afterHead, afterName := AuthenticateParts(c, input);
    TakeCountedExactly(afterName, c.password, Authenticate(c, input).rest);
    CredentialsAssembled(c, Authenticate(c, input).rest);
  }

  lemma NameInverts(utf8: seq<Byte> -> bool, name: seq<Byte>, rest: seq<Byte>)
    requires 0 < |name| <= 255 && utf8(name)
    ensures Address(ATYP_DOMAIN, utf8, Counted(name) + rest) == Go(Name(name), rest, [])
  {
    assert Counted(name) + rest == [|name| as Byte] + (name + rest);
    TakeSplit([|name| as Byte], name + rest);
    TakeSplit(name, rest);
  }

  lemma AddressInverts(utf8: seq<Byte> -> bool, host: Host, rest: seq<Byte>)
    requires ValidHost(utf8, host)
    ensures Address(AddressType(host), utf8, AddressBody(host) + rest) == Go(host, rest, [])
  {
    match host
    case V4(octets) => TakeSplit(octets, rest);
    case V6(octets) => TakeSplit(octets, rest);
    case Name(name) => NameInverts(utf8, name, rest);
  }

  lemma AddressOnly(atyp: Byte, utf8: seq<Byte> -> bool, input: seq<Byte>)
    requires Address(atyp, utf8, input).Go?
    ensures var host := Address(atyp, utf8, input).value;
            && ValidHost(utf8, host) && atyp == AddressType(host)
            && input == AddressBody(host) + Address(atyp, utf8, input).rest
    ensures Address(atyp, utf8, input).sent == []
  {
    if atyp == ATYP_DOMAIN {
      var length := Take(input, 1);
      var name := Take(length.rest, length.value[0]);
      assert length.value == [|name.value| as Byte];
      assert input == length.value + (name.value + name.rest);
    }
  }

  lemma Regroup(a: seq<Byte>, b: seq<Byte>, c: seq<Byte>, d: seq<Byte>)
    ensures a + (b + (c + d)) == a + b + c + d
  {
  }

  lemma PortInverts(port: nat)
    requires port < 0x1_0000
    ensures 0 <= port / 256 < 256 && BigEndian(port / 256, port % 256) == port
  {
  }

  lemma PortOnly(high: Byte, low: Byte)
    ensures BigEndian(high, low) < 0x1_0000
    ensures BigEndian(high, low) / 256 == high && BigEndian(high, low) % 256 == low
  {
  }

  lemma RequestAssembled(utf8: seq<Byte> -> bool, host: Host, high: Byte, low: Byte, rest: seq<Byte>)
    requires ValidHost(utf8, host)
    ensures var d := Destination(host, BigEndian(high, low));
            && ValidDestination(utf8, d)
            && [VERSION, CONNECT, 0, AddressType(host)] + (AddressBody(host) + ([high, low] + rest))
               == EncodeRequest(d) + rest
  {
    PortOnly(high, low);
    Regroup([VERSION, CONNECT, 0, AddressType(host)], AddressBody(host), [high, low], rest);
  }

  lemma RequestInverts(utf8: seq<Byte> -> bool, d: Destination, rest: seq<Byte>)
    requires ValidDestination(utf8, d)
    ensures Request(utf8, EncodeRequest(d) + rest) == Go(d, rest, [])
  {
    PortInverts(d.port);
    var port: seq<Byte> := [d.port / 256, d.port % 256];
    var head := [VERSION, CONNECT, 0, AddressType(d.host)];
    var body := AddressBody(d.host);
    Regroup(head, body, port, rest);
    TakeSplit(head, body + (port + rest));
    AddressInverts(utf8, d.host, port + rest);
    TakeSplit(port, rest);
  }

  lemma TakeTwo(input: seq<Byte>)
    requires |input| >= 2
    ensures Take(input, 2).value == [input[0], input[1]] && input == [input[0], input[1]] + Take(input, 2).rest
  {
  }

  lemma TakeFour(input: seq<Byte>)
    requires |input| >= 4
    ensures Take(input, 4).value == [input[0], input[1], input[2], input[3]]
    ensures input == [input[0], input[1], input[2], input[3]] + Take(input, 4).rest
  {
  }

  /** What an understood request consists of. */
  lemma RequestParts(utf8: seq<Byte> -> bool, input: seq<Byte>)
    returns (atyp: Byte, afterHead: seq<Byte>, host: Step<Host>, high: Byte, low: Byte)
    requires Request(utf8, input).Go?
    ensures input == [VERSION, CONNECT, 0, atyp] + afterHead && host == Address(atyp, utf8, afterHead) && host.Go?
    ensures host.rest == [high, low] + Request(utf8, input).rest
    ensures Request(utf8, input).value == Destination(host.value, BigEndian(high, low))
    ensures Request(utf8, input).sent == []
  {
    var head := Take(input, 4);
    TakeFour(input);
    atyp, afterHead := input[3], head.rest;
    host := Address(atyp, utf8, afterHead);
    TakeTwo(host.rest);
    high, low := host.rest[0], host.rest[1];
  }

  lemma RequestOnly(utf8: seq<Byte> -> bool, input: seq<Byte>)
    requires Request(utf8, input).Go?
    ensures Request(utf8, input).sent == []
    ensures var d := Request(utf8, input).value;
            ValidDestination(utf8, d) && input == EncodeRequest(d) + Request(utf8, input).rest
  {
    var atyp, afterHead, host, high, low := RequestParts(utf8, input);
    AddressOnly(atyp, utf8, afterHead);
    RequestAssembled(utf8, host.value, high, low, Request(utf8, input).rest);
  }

  // ---------------------------------------------------------------- theorems

  /** The three parts one after the other. */
  lemma NegotiateAll(
    c: Credentials, utf8: seq<Byte> -> bool, input: seq<Byte>, methods: seq<Byte>,
    afterGreeting: seq<Byte>, afterAuth: seq<Byte>, d: Destination, rest: seq<Byte>)
    requires Greet(input) == Go(methods, afterGreeting, [VERSION, METHOD_PASSWORD])
    requires Authenticate(c, afterGreeting) == Go(c, afterAuth, [1, 0])
    requires Request(utf8, afterAuth) == Go(d, rest, [])
    ensures Negotiate(c, utf8, input) == Go(d, rest, [VERSION, METHOD_PASSWORD, 1, 0])
  {
  }

  lemma NegotiateRefuses(
    c: Credentials, utf8: seq<Byte> -> bool, input: seq<Byte>, methods: seq<Byte>,
    afterGreeting: seq<Byte>, rest: seq<Byte>)
    requires Greet(input) == Go(methods, afterGreeting, [VERSION, METHOD_PASSWORD])
    requires Authenticate(c, afterGreeting) == Stop(AuthenticationFailed, rest, [1, 1])
    ensures Negotiate(c, utf8, input) == Stop(AuthenticationFailed, rest, [VERSION, METHOD_PASSWORD, 1, 1])
  {
  }

  lemma Regroup3(a: seq<Byte>, b: seq<Byte>, c: seq<Byte>)
    ensures a + (b + c) == a + b + c
  {
  }

  /** Any valid request, encoded, is understood as itself, whatever follows it. */
  lemma RoundTrip(methods: seq<Byte>, c: Credentials, utf8: seq<Byte> -> bool, d: Destination, rest: seq<Byte>)
    requires ValidMethods(methods) && Usable(c) && ValidDestination(utf8, d)
    ensures Negotiate(c, utf8, Encode(methods, c, utf8, d) + rest) == Go(d, rest, [VERSION, METHOD_PASSWORD, 1, 0])
  {
    var afterAuth := EncodeRequest(d) + rest;
    var afterGreeting := EncodeCredentials(c) + afterAuth;
    Regroup(EncodeGreeting(methods), EncodeCredentials(c), EncodeRequest(d), rest);
    GreetInverts(methods, afterGreeting);
    AuthenticateInverts(c, c, afterAuth);
    RequestInverts(utf8, d, rest);
    NegotiateAll(c, utf8, Encode(methods, c, utf8, d) + rest, methods, afterGreeting, afterAuth, d, rest);
  }

  ghost predicate Begins(
    input: seq<Byte>, methods: seq<Byte>, c: Credentials, utf8: seq<Byte> -> bool, d: Destination, rest: seq<Byte>)
  {
    && ValidMethods(methods) && Usable(c) && ValidDestination(utf8, d)
    && input == Encode(methods, c, utf8, d) + rest
  }

  /** Whatever comes out was asked for: the stream begins with an encoding of it. */
  lemma AcceptsOnly(c: Credentials, utf8: seq<Byte> -> bool, input: seq<Byte>)
    requires Usable(c) && Negotiate(c, utf8, input).Go?
    ensures var end := Negotiate(c, utf8, input);
            && Begins(input, Greet(input).value, c, utf8, end.value, end.rest)
            && end.sent == [VERSION, METHOD_PASSWORD, 1, 0]
  {
    var greeted := Greet(input);
    var known := Authenticate(c, greeted.rest);
    var asked := Request(utf8, known.rest);
    GreetOnly(input);
    AuthenticateOnly(c, greeted.rest);
    RequestOnly(utf8, known.rest);
    Regroup(EncodeGreeting(greeted.value), EncodeCredentials(c), EncodeRequest(asked.value), asked.rest);
  }

  /**
   For every byte stream: a destination comes out exactly when the stream begins with a greeting
   that offers the password method, the exact credentials and a CONNECT request for it, and then
   exactly those bytes are consumed.
   */
  lemma AcceptsExactly(c: Credentials, utf8: seq<Byte> -> bool, input: seq<Byte>, d: Destination, rest: seq<Byte>)
    requires Usable(c)
    ensures Negotiate(c, utf8, input) == Go(d, rest, [VERSION, METHOD_PASSWORD, 1, 0]) <==>
            exists methods: seq<Byte> :: Begins(input, methods, c, utf8, d, rest)
    ensures Negotiate(c, utf8, input).Go? ==> Negotiate(c, utf8, input).sent == [VERSION, METHOD_PASSWORD, 1, 0]
  {
    if Negotiate(c, utf8, input).Go? {
      AcceptsOnly(c, utf8, input);
    }
    if methods: seq<Byte> :| Begins(input, methods, c, utf8, d, rest) {
      RoundTrip(methods, c, utf8, d, rest);
    }
  }

  /** Two encodings that begin the same stream are the same: no request is a prefix of another. */
  lemma EncodingIsPrefixFree(
    input: seq<Byte>, methods: seq<Byte>, other: seq<Byte>, c: Credentials, utf8: seq<Byte> -> bool,
    d: Destination, e: Destination, rest: seq<Byte>, more: seq<Byte>)
    requires Begins(input, methods, c, utf8, d, rest) && Begins(input, other, c, utf8, e, more)
    ensures methods == other && d == e && rest == more
  {
    RoundTrip(methods, c, utf8, d, rest);
    RoundTrip(other, c, utf8, e, more);
    BeginsGreeting(input, methods, c, utf8, d, rest);
    BeginsGreeting(input, other, c, utf8, e, more);
  }

  lemma BeginsGreeting(
    input: seq<Byte>, methods: seq<Byte>, c: Credentials, utf8: seq<Byte> -> bool, d: Destination, rest: seq<Byte>)
    requires Begins(input, methods, c, utf8, d, rest)
    ensures Greet(input).Go? && Greet(input).value == methods
  {
    var tail := EncodeCredentials(c) + (EncodeRequest(d) + rest);
    Regroup(EncodeGreeting(methods), EncodeCredentials(c), EncodeRequest(d), rest);
    GreetInverts(methods, tail);
  }

  /**
   A peer with any other user name or password is told so and is never asked for a request: the
   exchange stops right behind its credentials, whatever follows.
   */
  lemma WrongCredentialsStop(
    methods: seq<Byte>, c: Credentials, given: Credentials, utf8: seq<Byte> -> bool, rest: seq<Byte>)
    requires ValidMethods(methods) && Usable(c) && Usable(given) && given != c
    ensures Negotiate(c, utf8, EncodeGreeting(methods) + EncodeCredentials(given) + rest) ==
            Stop(AuthenticationFailed, rest, [VERSION, METHOD_PASSWORD, 1, 1])
  {
    var afterGreeting := EncodeCredentials(given) + rest;
    Regroup3(EncodeGreeting(methods), EncodeCredentials(given), rest);
    GreetInverts(methods, afterGreeting);
    AuthenticateInverts(c, given, rest);
    NegotiateRefuses(
      c, utf8, EncodeGreeting(methods) + EncodeCredentials(given) + rest, methods, afterGreeting, rest);
  }

  // ---------------------------------------------------------------- refusals

  /** When the method negotiation fails, and how, for every input. */
  lemma GreetFails(input: seq<Byte>)
    ensures Greet(input).Go? ==> Greet(input).sent == [5, 2]
    ensures Greet(input).Stop? ==>
              var end := Greet(input);
              if |input| < 2 then end == Stop(Eof, [], [])
              else if input[0] != 5 then end == Stop(NotSocks5, input[2..], [])
              else if input[1] == 0 then end == Stop(NoMethods, input[2..], [5, 0xFF])
              else
                var methods: nat := input[1];
                if |input| < 2 + methods then end == Stop(Eof, [], [])
                else 2 !in input[2..2 + methods] && end == Stop(AuthenticationRequired, input[2 + methods..], [5, 0xFF])
  {
  }

  lemma TakeAt(input: seq<Byte>, at: nat, n: nat)
    requires at <= |input|
    ensures at + n <= |input| ==> Take(input[at..], n) == Go(input[at..at + n], input[at + n..], [])
    ensures at + n > |input| ==> Take(input[at..], n) == Stop(Eof, [], [])
  {
    if at + n <= |input| {
      assert input[at..][..n] == input[at..at + n] && input[at..][n..] == input[at + n..];
    }
  }

  /** The exchange read off the input by position. */
  lemma AuthenticateAt(c: Credentials, input: seq<Byte>, name: nat, word: nat)
    requires |input| >= 2 && input[0] == 1 && input[1] == name > 0
    requires |input| >= 3 + name ==> input[2 + name] == word
    ensures |input| < 3 + name || |input| < 3 + name + word ==> Authenticate(c, input) == Stop(Eof, [], [])
    ensures |input| >= 3 + name && |input| >= 3 + name + word ==>
              Authenticate(c, input) ==
              if input[2..2 + name] == c.username && input[3 + name..3 + name + word] == c.password
              then Go(c, input[3 + name + word..], [1, 0])
              else Stop(AuthenticationFailed, input[3 + name + word..], [1, 1])
  {
    TakeAt(input, 2, name);
    if 2 + name <= |input| {
      TakeAt(input, 2 + name, 1);
      if 3 + name <= |input| {
        assert input[2 + name..3 + name][0] == word;
        TakeAt(input, 3 + name, word);
      }
    }
  }

  /** When the password exchange fails, and how. */
  lemma AuthenticateFails(c: Credentials, input: seq<Byte>)
    ensures Authenticate(c, input).Go? ==> Authenticate(c, input).sent == [1, 0]
    ensures Authenticate(c, input).Stop? ==>
              var end := Authenticate(c, input);
              if |input| < 2 then end == Stop(Eof, [], [])
              else if input[0] != 1 || input[1] == 0 then end == Stop(InvalidAuthentication, input[2..], [1, 1])
              else
                var name: nat := input[1];
                if |input| < 3 + name then end == Stop(Eof, [], [])
                else
                  var word: nat := input[2 + name];
                  if |input| < 3 + name + word then end == Stop(Eof, [], [])
                  else
                    && (input[2..2 + name] != c.username || input[3 + name..3 + name + word] != c.password)
                    && end == Stop(AuthenticationFailed, input[3 + name + word..], [1, 1])
  {
    if |input| >= 2 && input[0] == 1 && input[1] > 0 {
      var name: nat := input[1];
      AuthenticateAt(c, input, name, if |input| >= 3 + name then input[2 + name] else 0);
    }
  }

  /** When the address of a request fails, and how. */
  lemma AddressFails(atyp: Byte, utf8: seq<Byte> -> bool, input: seq<Byte>)
    ensures Address(atyp, utf8, input).Go? ==> Address(atyp, utf8, input).sent == []
    ensures Address(atyp, utf8, input).Stop? ==>
              var end := Address(atyp, utf8, input);
              if atyp !in {1, 3, 4} then end == Stop(BadAddressType, input, [5, 8, 0, 1, 0, 0, 0, 0, 0, 0])
              else if atyp != 3 then end == Stop(Eof, [], []) && |input| < if atyp == 1 then 4 else 16
              else if input == [] then end == Stop(Eof, [], [])
              else if input[0] == 0 then end == Stop(EmptyName, input[1..], [5, 1, 0, 1, 0, 0, 0, 0, 0, 0])
              else
                var length: nat := input[0];
                if |input| < 1 + length then end == Stop(Eof, [], [])
                else
                  && !utf8(input[1..1 + length])
                  && end == Stop(NotUtf8, input[1 + length..], [5, 1, 0, 1, 0, 0, 0, 0, 0, 0])
  {
    if atyp == 3 && |input| > 1 && input[0] > 0 {
      var length: nat := input[0];
      if length < |input| {
        assert input[1..][..length] == input[1..1 + length];
      }
    }
  }

  /** When the request fails, and how. */
  lemma RequestFails(utf8: seq<Byte> -> bool, input: seq<Byte>)
    ensures Request(utf8, input).Go? ==> Request(utf8, input).sent == []
    ensures Request(utf8, input).Stop? ==>
              var end := Request(utf8, input);
              if |input| < 4 then end == Stop(Eof, [], [])
              else if input[0] != 5 then end == Stop(RequestNotSocks5, input[4..], [])
              else if input[2] != 0 then end == Stop(BadReservedByte, input[4..], [])
              else if input[1] != 1 then end == Stop(NotConnect, input[4..], [5, 7, 0, 1, 0, 0, 0, 0, 0, 0])
              else
                var host := Address(input[3], utf8, input[4..]);
                if host.Stop? then end == Stop(host.failure, host.rest, host.sent)
                else |host.rest| < 2 && end == Stop(Eof, [], [])
  {
  }

  /** What a refused or interrupted peer has been sent, in bytes. */
  predicate Told(failure: Failure, sent: seq<Byte>) {
    match failure
    case Eof => sent == [] || sent == [5, 2] || sent == [5, 2, 1, 0]
    case NotSocks5 => sent == []
    case NoMethods => sent == [5, 0xFF]
    case AuthenticationRequired => sent == [5, 0xFF]
    case InvalidAuthentication => sent == [5, 2, 1, 1]
    case AuthenticationFailed => sent == [5, 2, 1, 1]
    case RequestNotSocks5 => sent == [5, 2, 1, 0]
    case BadReservedByte => sent == [5, 2, 1, 0]
    case NotConnect => sent == [5, 2, 1, 0, 5, 7, 0, 1, 0, 0, 0, 0, 0, 0]
    case EmptyName => sent == [5, 2, 1, 0, 5, 1, 0, 1, 0, 0, 0, 0, 0, 0]
    case NotUtf8 => sent == [5, 2, 1, 0, 5, 1, 0, 1, 0, 0, 0, 0, 0, 0]
    case BadAddressType => sent == [5, 2, 1, 0, 5, 8, 0, 1, 0, 0, 0, 0, 0, 0]
  }

  lemma GreetTells(input: seq<Byte>)
    ensures if Greet(input).Stop? then Told(Greet(input).failure, Greet(input).sent) else Greet(input).sent == [5, 2]
  {
    GreetFails(input);
  }

  lemma AuthenticateTells(c: Credentials, input: seq<Byte>)
    ensures var end := Authenticate(c, input);
            if end.Stop? then Told(end.failure, [5, 2] + end.sent) else end.sent == [1, 0]
  {
    AuthenticateFails(c, input);
  }

  lemma ReplyTold(code: Byte)
    ensures [5, 2] + [1, 0] + [5, code, 0, 1, 0, 0, 0, 0, 0, 0] == [5, 2, 1, 0, 5, code, 0, 1, 0, 0, 0, 0, 0, 0]
  {
  }

  lemma AddressTells(atyp: Byte, utf8: seq<Byte> -> bool, input: seq<Byte>)
    ensures var end := Address(atyp, utf8, input);
            if end.Stop? then Told(end.failure, [5, 2] + [1, 0] + end.sent) else end.sent == []
  {
    AddressFails(atyp, utf8, input);
    ReplyTold(1);
    ReplyTold(8);
    assert [5, 2] + [1, 0] + [] == [5, 2, 1, 0];
  }

  lemma RequestTells(utf8: seq<Byte> -> bool, input: seq<Byte>)
    ensures var end := Request(utf8, input);
            if end.Stop? then Told(end.failure, [5, 2] + [1, 0] + end.sent) else end.sent == []
  {
    RequestFails(utf8, input);
    if |input| >= 4 {
      AddressTells(input[3], utf8, input[4..]);
    }
  }

  /** Whatever the peer sends, a negotiation that stops has told it so in these bytes. */
  lemma RefusalBytes(c: Credentials, utf8: seq<Byte> -> bool, input: seq<Byte>)
    requires Negotiate(c, utf8, input).Stop?
    ensures Told(Negotiate(c, utf8, input).failure, Negotiate(c, utf8, input).sent)
  {
    var greeted := Greet(input);
    GreetTells(input);
    if greeted.Go? {
      var known := Authenticate(c, greeted.rest);
      AuthenticateTells(c, greeted.rest);
      if known.Go? {
        RequestTells(utf8, known.rest);
      }
    }
  }

  /** No refusal looks like a success: fourteen bytes with a zero reply code. */
  lemma ToldIsNoSuccess(failure: Failure, sent: seq<Byte>)
    requires Told(failure, sent) && |sent| == 14
    ensures sent[5] != 0
  {
  }
}
