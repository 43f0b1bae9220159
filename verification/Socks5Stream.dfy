/**
 The same negotiation as `src/socks5.rs` writes it: reads from a stream that arrives in pieces,
 replies written as it goes along. However the bytes are split into reads, the result is the one
 the function in `Socks5` gives for the whole stream.
 */
module Socks5Stream {
  import opened S = Socks5
  import opened Bytes
  import opened Bags

  /** All the bytes of a list of reads. */
  function Flat(pieces: seq<seq<Byte>>): seq<Byte> {
    if pieces == [] then [] else pieces[0] + Flat(pieces[1..])
  }

  /** How dialling through the tunnel ends; `Refuses` is a dial error that names `ConnectFailed`. */
  datatype Dialled = Connects | Refuses | Unreachable | OtherError | TimesOut

  function ReplyCode(end: Dialled): Byte {
    match end
    case Connects => 0
    case Refuses => 5
    case Unreachable => 4
    case OtherError => 1
    case TimesOut => 4
  }

  /** The codes of section 6 of RFC 1928: succeeded, refused, host unreachable, general failure. */
  predicate IsCode(end: Dialled, code: Byte) {
    match end
    case Connects => code == 0
    case Refuses => code == 5
    case Unreachable => code == 4
    case TimesOut => code == 4
    case OtherError => code == 1
  }

  /** What the peer sends, split as the reads will deliver it, and what it was sent. */
  class Peer {
    var pieces: seq<seq<Byte>>
    var sent: seq<Byte>
    /** The destinations the tunnel was asked to dial for this peer. */
    var dialled: seq<Destination>

    constructor (pieces: seq<seq<Byte>>)
      ensures this.pieces == pieces && sent == [] && dialled == []
    {
      this.pieces, sent, dialled := pieces, [], [];
    }

    /** Everything still to be read. */
    function Input(): seq<Byte>
      reads this`pieces
    {
      Flat(pieces)
    }

    /** One read of at most `max` bytes: a piece, or the front of one. It is empty at the end only. */
    method Read(max: nat) returns (piece: seq<Byte>)
      requires max > 0
      modifies this`pieces
      ensures old(Input()) == piece + Input() && |piece| <= max
      ensures piece == [] ==> old(Input()) == []
    {
      piece := [];
      while pieces != [] && piece == []
        invariant piece + Input() == old(Input()) && |piece| <= max
        decreases |pieces|, |piece| == 0
      {
        var head := pieces[0];
        if |head| <= max {
          piece, pieces := head, pieces[1..];
        } else {
          piece := head[..max];
          pieces := [head[max..]] + pieces[1..];
          assert head == piece + head[max..];
        }
      }
    }

    /** `read_exact`: repeated reads until `n` bytes are there or the stream ends. */
    method ReadExact(n: nat) returns (bytes: Step<seq<Byte>>)
      modifies this`pieces
      ensures bytes == Take(old(Input()), n) && Input() == bytes.rest
    {
      var got: seq<Byte> := [];
      while |got| < n
        invariant |got| <= n && old(Input()) == got + Input()
      {
        var piece := Read(n - |got|);
        if piece == [] {
          return Stop(Eof, [], []);
        }
        assert got + (piece + Input()) == got + piece + Input();
        got := got + piece;
      }
      TakeSplit(got, Input());
      bytes := Go(got, Input(), []);
    }

    method WriteAll(bytes: seq<Byte>)
      modifies this`sent
      ensures sent == old(sent) + bytes
    {
      sent := sent + bytes;
    }

    method Greet() returns (methods: Step<seq<Byte>>)
      modifies this`pieces, this`sent
      ensures methods == S.Greet(old(Input())) && Input() == methods.rest && sent == old(sent) + methods.sent
    {
      var greeting := ReadExact(2);
      if greeting.Stop? {
        return greeting;
      }
      if greeting.value[0] != VERSION {
        return Stop(NotSocks5, Input(), []);
      }
      if greeting.value[1] == 0 {
        WriteAll([VERSION, NONE_ACCEPTABLE]);
        return Stop(NoMethods, Input(), [VERSION, NONE_ACCEPTABLE]);
      }
      var offered := ReadExact(greeting.value[1]);
      if offered.Stop? {
        return offered;
      }
      if METHOD_PASSWORD !in offered.value {
        WriteAll([VERSION, NONE_ACCEPTABLE]);
        return Stop(AuthenticationRequired, Input(), [VERSION, NONE_ACCEPTABLE]);
      }
      WriteAll([VERSION, METHOD_PASSWORD]);
      methods := Go(offered.value, Input(), [VERSION, METHOD_PASSWORD]);
    }

    method Authenticate(c: Credentials) returns (given: Step<Credentials>)
      modifies this`pieces, this`sent
      ensures given == S.Authenticate(c, old(Input())) && Input() == given.rest && sent == old(sent) + given.sent
    {
      var head := ReadExact(2);
      if head.Stop? {
        return Stop(Eof, [], []);
      }
      if head.value[0] != 1 || head.value[1] == 0 {
        WriteAll([1, 1]);
        return Stop(InvalidAuthentication, Input(), [1, 1]);
      }
      var username := ReadExact(head.value[1]);
      if username.Stop? {
        return Stop(Eof, [], []);
      }
      var length := ReadExact(1);
      if length.Stop? {
        return Stop(Eof, [], []);
      }
      var password := ReadExact(length.value[0]);
      if password.Stop? {
        return Stop(Eof, [], []);
      }
      if username.value != c.username || password.value != c.password {
        WriteAll([1, 1]);
        return Stop(AuthenticationFailed, Input(), [1, 1]);
      }
      WriteAll([1, 0]);
      given := Go(Credentials(username.value, password.value), Input(), [1, 0]);
    }

    method Address(atyp: Byte, utf8: seq<Byte> -> bool) returns (host: Step<Host>)
      modifies this`pieces, this`sent
      ensures host == S.Address(atyp, utf8, old(Input())) && Input() == host.rest && sent == old(sent) + host.sent
    {
      if atyp == ATYP_IPV4 {
        var octets := ReadExact(4);
        return if octets.Stop? then Stop(Eof, [], []) else Go(V4(octets.value), Input(), []);
      }
      if atyp == ATYP_IPV6 {
        var octets := ReadExact(16);
        return if octets.Stop? then Stop(Eof, [], []) else Go(V6(octets.value), Input(), []);
      }
      if atyp != ATYP_DOMAIN {
        WriteAll(Reply(8));
        return Stop(BadAddressType, Input(), Reply(8));
      }
      var length := ReadExact(1);
      if length.Stop? {
        return Stop(Eof, [], []);
      }
      if length.value[0] == 0 {
        WriteAll(Reply(1));
        return Stop(EmptyName, Input(), Reply(1));
      }
      var name := ReadExact(length.value[0]);
      if name.Stop? {
        return Stop(Eof, [], []);
      }
      if !utf8(name.value) {
        WriteAll(Reply(1));
        return Stop(NotUtf8, Input(), Reply(1));
      }
      host := Go(Name(name.value), Input(), []);
    }

    method Request(utf8: seq<Byte> -> bool) returns (d: Step<Destination>)
      modifies this`pieces, this`sent
      ensures d == S.Request(utf8, old(Input())) && Input() == d.rest && sent == old(sent) + d.sent
    {
      var head := ReadExact(4);
      if head.Stop? {
        return Stop(Eof, [], []);
      }
      if head.value[0] != VERSION {
        return Stop(RequestNotSocks5, Input(), []);
      }
      if head.value[2] != 0 {
        return Stop(BadReservedByte, Input(), []);
      }
      if head.value[1] != CONNECT {
        WriteAll(Reply(7));
        return Stop(NotConnect, Input(), Reply(7));
      }
      var host := Address(head.value[3], utf8);
      if host.Stop? {
        return Stop(host.failure, host.rest, host.sent);
      }
      var port := ReadExact(2);
      if port.Stop? {
        return Stop(Eof, [], []);
      }
      d := Go(Destination(host.value, BigEndian(port.value[0], port.value[1])), Input(), []);
    }

    /** The whole negotiation, for every way the peer's bytes are split into reads. */
    method Negotiate(c: Credentials, utf8: seq<Byte> -> bool) returns (d: Step<Destination>)
      modifies this`pieces, this`sent
      ensures d == S.Negotiate(c, utf8, old(Input())) && Input() == d.rest && sent == old(sent) + d.sent
    {
      ghost var before := sent;
      var greeted := Greet();
      if greeted.Stop? {
        return Stop(greeted.failure, greeted.rest, greeted.sent);
      }
      var known := Authenticate(c);
      if known.Stop? {
        Appended(before, greeted.sent, known.sent, []);
        return Stop(known.failure, known.rest, greeted.sent + known.sent);
      }
      var asked := Request(utf8);
      Appended(before, greeted.sent, known.sent, asked.sent);
      d := asked.(sent := greeted.sent + known.sent + asked.sent);
    }

    /** What the negotiation tells about the stream, in terms of the encoder. */
    method Ask(c: Credentials, utf8: seq<Byte> -> bool) returns (d: Step<Destination>)
      requires Usable(c)
      modifies this`pieces, this`sent
      ensures Input() == d.rest && sent == old(sent) + d.sent && (d.Stop? ==> Told(d.failure, d.sent))
      ensures d.Go? ==>
                && d.sent == [VERSION, METHOD_PASSWORD, 1, 0]
                && exists methods :: Begins(old(Input()), methods, c, utf8, d.value, d.rest)
      ensures forall methods, e, rest :: Begins(old(Input()), methods, c, utf8, e, rest) ==>
                d == Go(e, rest, [VERSION, METHOD_PASSWORD, 1, 0])
    {
      ghost var input := Input();
      d := Negotiate(c, utf8);
      forall methods, e, rest | Begins(input, methods, c, utf8, e, rest)
        ensures d == Go(e, rest, [VERSION, METHOD_PASSWORD, 1, 0])
      {
        AcceptsExactly(c, utf8, input, e, rest);
      }
      if d.Go? {
        AcceptsExactly(c, utf8, input, d.value, d.rest);
      } else {
        RefusalBytes(c, utf8, input);
      }
    }

    method Dial(d: Destination, dial: Destination -> Dialled) returns (end: Dialled)
      modifies this`dialled
      ensures dialled == old(dialled) + [d] && end == dial(d)
    {
      dialled := dialled + [d];
      end := dial(d);
    }

    /**
     `handle_connection` up to the pump. The tunnel is dialled once, and only for a destination that
     was asked for in full and with the credentials; then one reply follows, and it says success
     exactly when the dial did. Otherwise nothing is sent but a refusal. The pump starts exactly when
     the peer was sent fourteen bytes with a reply code of zero, and nothing past the request is
     consumed before it.
     */
    method HandleConnection(c: Credentials, utf8: seq<Byte> -> bool, dial: Destination -> Dialled)
      returns (pumping: Option<Destination>)
      requires Usable(c)
      modifies this
      ensures
        || (dialled == old(dialled) && pumping.None? && exists f, told :: Told(f, told) && sent == old(sent) + told)
        || exists methods, d, code ::
             && IsCode(dial(d), code)
             && Begins(old(Input()), methods, c, utf8, d, Input())
             && dialled == old(dialled) + [d]
             && pumping == (if dial(d).Connects? then Some(d) else None)
             && sent == old(sent) + [5, 2, 1, 0, 5, code, 0, 1, 0, 0, 0, 0, 0, 0]
      ensures (exists methods, d, rest :: Begins(old(Input()), methods, c, utf8, d, rest)) ==> dialled != old(dialled)
      ensures pumping.Some? <==> |sent| == |old(sent)| + 14 && sent[|old(sent)| + 5] == 0
    {
      ghost var before := sent;
      ghost var calls := dialled;
      var asked := Ask(c, utf8);
      if asked.Stop? {
        if |asked.sent| == 14 {
          ToldIsNoSuccess(asked.failure, asked.sent);
        }
        return None;
      }
      ghost var methods :| Begins(old(Input()), methods, c, utf8, asked.value, asked.rest);
      var end := Dial(asked.value, dial);
      WriteAll(Reply(ReplyCode(end)));
      Appended(before, asked.sent, Reply(ReplyCode(end)), []);
      SuccessBytes(ReplyCode(end));
      assert Input() == asked.rest && |dialled| == |calls| + 1;
      pumping := if end.Connects? then Some(asked.value) else None;
      assert IsCode(end, ReplyCode(end)) && Begins(old(Input()), methods, c, utf8, asked.value, Input());
    }
  }

  lemma SuccessBytes(code: Byte)
    ensures [VERSION, METHOD_PASSWORD, 1, 0] + Reply(code) == [5, 2, 1, 0, 5, code, 0, 1, 0, 0, 0, 0, 0, 0]
  {
  }

  lemma Appended(a: seq<Byte>, b: seq<Byte>, c: seq<Byte>, d: seq<Byte>)
    ensures a + b + c == a + (b + c)
    ensures a + b + c + d == a + (b + c + d)
  {
  }
}
