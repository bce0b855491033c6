/** The RCON wire format, and the client with its sentinel packet. */
module RconWire {
  import opened Collections
  import opened Wrappers

  type byte = b: int | 0 <= b < 256

  const MAX_COMMAND := 1446
  const MAX_PACKET := 4096 + 14
  const MAX_BODY := MAX_PACKET + 1024 - 10
  const EXEC_COMMAND := 2
  const RESPONSE_VALUE := 0

  predicate Int32(n: int) { -0x8000_0000 <= n < 0x8000_0000 }

  function LittleEndian(n: int): (r: seq<byte>)
    requires Int32(n)
    ensures |r| == 4
  {
    var u := if n < 0 then n + 0x1_0000_0000 else n;
    [Byte(u), Byte(u / 256), Byte(u / 65536), Byte(u / 16777216)]
  }

  /** The lowest eight bits. */
  function Byte(u: int): byte { u % 256 }

  function FromLittleEndian(s: seq<byte>): (n: int)
    requires |s| == 4
    ensures Int32(n)
  {
    var b0: int, b1: int, b2: int, b3: int := s[0], s[1], s[2], s[3];
    var u := b0 + 256 * b1 + 65536 * b2 + 16777216 * b3;
    if u >= 0x8000_0000 then u - 0x1_0000_0000 else u
  }

  lemma LittleEndianRoundTrip(n: int)
    requires Int32(n)
    ensures FromLittleEndian(LittleEndian(n)) == n
  {
    var u := if n < 0 then n + 0x1_0000_0000 else n;
    assert u == u % 256 + 256 * (u / 256);
    assert u / 256 == u / 256 % 256 + 256 * (u / 65536);
    assert u / 65536 == u / 65536 % 256 + 256 * (u / 16777216);
  }

  datatype Packet = Packet(id: int, ptype: int, body: seq<byte>)

  predicate ValidPacket(p: Packet) {
    Int32(p.id) && Int32(p.ptype) && |p.body| <= MAX_BODY
  }

  /** Size, id, type, body, two terminating zeros: section "Basic Packet
      Structure" of Valve's Source RCON Protocol. */
  function Encode(p: Packet): seq<byte>
    requires ValidPacket(p)
  {
    var payload := LittleEndian(p.id) + LittleEndian(p.ptype) + p.body + [0, 0];
    LittleEndian(|payload|) + payload
  }

  function EncodeAll(ps: seq<Packet>): seq<byte>
    requires forall p | p in ps :: ValidPacket(p)
  {
    if ps == [] then [] else Encode(ps[0]) + EncodeAll(ps[1..])
  }

  datatype Received = Got(packet: Packet, rest: seq<byte>) | BadLength | Incomplete

  /** The first packet of a stream. */
  function Parse(stream: seq<byte>): (r: Received)
    ensures r.Got? ==> |r.rest| < |stream| && r.rest == stream[|stream| - |r.rest|..]
  {
    if |stream| < 4 then Incomplete
    else
      var length := FromLittleEndian(stream[..4]);
      if length < 10 || length > MAX_PACKET + 1024 then BadLength
      else if |stream| < 4 + length then Incomplete
      else
        var data := stream[4..4 + length];
        var p := Packet(FromLittleEndian(data[..4]), FromLittleEndian(data[4..8]), data[8..length - 2]);
        Got(p, stream[4 + length..])
  }

  lemma ParseOfEncoded(p: Packet, rest: seq<byte>)
    requires ValidPacket(p)
    ensures Parse(Encode(p) + rest) == Got(p, rest)
  {
    var payload := LittleEndian(p.id) + LittleEndian(p.ptype) + p.body + [0, 0];
    var stream := Encode(p) + rest;
    assert stream[..4] == LittleEndian(|payload|);
    LittleEndianRoundTrip(|payload|);
    LittleEndianRoundTrip(p.id);
    LittleEndianRoundTrip(p.ptype);
    assert stream[4..4 + |payload|] == payload;
    assert payload[..4] == LittleEndian(p.id);
    assert payload[4..8] == LittleEndian(p.ptype);
    assert payload[8..|payload| - 2] == p.body;
    assert stream[4 + |payload|..] == rest;
  }

  /** What a command is on the wire: its length and ten, the request's number, the type 2,
      the text and two zeros, each number from its lowest byte on; the sentinel behind it
      is an empty packet of type 0. */
  lemma CommandBytes(req: nat, cmd: seq<byte>)
    requires req < 0x8000_0000 && |cmd| <= 1446
    ensures var size, id: seq<byte> := [Byte(|cmd| + 10), (|cmd| + 10) / 256, 0, 0],
          [Byte(req), Byte(req / 256), Byte(req / 65536), req / 16777216];
      && Encode(Packet(req, EXEC_COMMAND, cmd)) == size + id + [2, 0, 0, 0] + cmd + [0, 0]
      && Encode(Packet(req, RESPONSE_VALUE, [])) == [10, 0, 0, 0] + id + [0, 0, 0, 0] + [0, 0]
  {
    assert LittleEndian(EXEC_COMMAND) == [2, 0, 0, 0] && LittleEndian(RESPONSE_VALUE) == [0, 0, 0, 0];
    assert LittleEndian(|cmd| + 10) == [Byte(|cmd| + 10), (|cmd| + 10) / 256, 0, 0];
    assert LittleEndian(10) == [10, 0, 0, 0];
    assert LittleEndian(req) == [Byte(req), Byte(req / 256), Byte(req / 65536), req / 16777216];
    hide LittleEndian, Byte;
  }

  /** A stream is given up exactly if its first four bytes say a length below 10 or above
      5134. */
  lemma LengthIsRefusedIff(stream: seq<byte>)
    ensures Parse(stream).BadLength? <==>
      && |stream| >= 4
      && var b0: int, b1: int, b2: int, b3: int := stream[0], stream[1], stream[2], stream[3];
         !(10 <= b0 + 256 * b1 + 65536 * b2 + 16777216 * b3 <= 5134)
  {
    if |stream| >= 4 {
      var front := stream[..4];
      assert front[0] == stream[0] && front[1] == stream[1] && front[2] == stream[2] && front[3] == stream[3];
    }
  }

  lemma CutPacketIsIncomplete(p: Packet, k: nat)
    requires ValidPacket(p) && k < |Encode(p)|
    ensures Parse(Encode(p)[..k]).Incomplete?
  {
    if k >= 4 {
      var payload := LittleEndian(p.id) + LittleEndian(p.ptype) + p.body + [0, 0];
      assert Encode(p)[..k][..4] == LittleEndian(|payload|);
      LittleEndianRoundTrip(|payload|);
    }
  }

  /** The packets a peer takes from a stream before it has to wait or gives up. */
  function Packets(stream: seq<byte>): seq<Packet>
    decreases |stream|
  {
    match Parse(stream)
    case Got(p, rest) => [p] + Packets(rest)
    case _ => []
  }

  lemma PacketsOf(p: Packet, rest: seq<byte>, stream: seq<byte>, ps: seq<Packet>)
    requires ValidPacket(p) && stream == Encode(p) + rest && Packets(rest) == ps
    ensures Packets(stream) == [p] + ps
  {
    ParseOfEncoded(p, rest);
  }

  /** Framing: a stream of encoded packets is taken apart into exactly those
      packets, whatever incomplete packet it ends with. */
  lemma {:induction false} FramingRoundTrip(ps: seq<Packet>, tail: seq<byte>, stream: seq<byte>)
    requires forall p | p in ps :: ValidPacket(p)
    requires Parse(tail).Incomplete? && stream == EncodeAll(ps) + tail
    ensures Packets(stream) == ps
  {
    if ps == [] {
      assert stream == tail;
    } else {
      var rest := EncodeAll(ps[1..]) + tail;
      assert stream == Encode(ps[0]) + rest;
      FramingRoundTrip(ps[1..], tail, rest);
      PacketsOf(ps[0], rest, stream, ps[1..]);
    }
  }

  // ----------------------------------------------------------- the byte stream

  function Flat(chunks: seq<seq<byte>>): seq<byte> {
    if chunks == [] then [] else chunks[0] + Flat(chunks[1..])
  }

  /** A connected socket: `chunks` are the pieces in which the peer's bytes will
      arrive (after the last one the peer is gone), `sent` what went out. */
  lemma FrontOf(a: seq<byte>, b: seq<byte>)
    ensures (a + b)[..|a|] == a && (a + b)[|a|..] == b
  {
  }

  class Socket {
    var chunks: seq<seq<byte>>
    var sent: seq<byte>

    predicate Valid()
      reads this`chunks
    {
      forall c | c in chunks :: c != []
    }

    function Incoming(): seq<byte>
      reads this`chunks
    {
      Flat(chunks)
    }

    constructor (chunks: seq<seq<byte>>)
      requires forall c | c in chunks :: c != []
      ensures Valid() && Incoming() == Flat(chunks) && sent == []
    {
      this.chunks, sent := chunks, [];
    }

    /** Up to `n` bytes of the next piece; nothing when the peer is gone. */
    method Recv(n: nat) returns (chunk: seq<byte>)
      requires Valid() && n > 0
      modifies this`chunks
      ensures Valid() && |chunk| <= n && old(Incoming()) == chunk + Incoming()
      ensures chunk == [] ==> old(Incoming()) == []
    {
      if chunks == [] {
        assert [] + Incoming() == Incoming();
        return [];
      }
      var head, tail := chunks[0], chunks[1..];
      assert head in chunks && forall c | c in tail :: c in chunks;
      if |head| <= n {
        chunk := head;
        chunks := tail;
      } else {
        chunk := head[..n];
        chunks := [head[n..]] + tail;
        assert chunks[1..] == tail;
        assert head + Flat(tail) == head[..n] + (head[n..] + Flat(tail));
      }
    }

    /** Hands bytes to the kernel, which may take only the first `taken`. */
    method SendAll(data: seq<byte>, taken: nat) returns (ok: bool)
      modifies this`sent
      ensures ok == (taken >= |data|)
      ensures sent == old(sent) + if ok then data else data[..taken]
    {
      ok := taken >= |data|;
      sent := sent + if ok then data else data[..taken];
    }

    /** Exactly `n` bytes, however they arrive. */
    method ReadExact(n: nat) returns (r: Option<seq<byte>>)
      requires Valid()
      modifies this`chunks
      ensures Valid()
      ensures var s := old(Incoming());
        if |s| >= n then r == Some(s[..n]) && Incoming() == s[n..]
        else r.None? && Incoming() == []
    {
      ghost var s := Incoming();
      var buf: seq<byte> := [];
      while |buf| < n
        invariant Valid() && |buf| <= n && s == buf + Incoming()
        decreases n - |buf|
      {
        var chunk := Recv(n - |buf|);
        if chunk == [] {
          assert s == buf;
          return None;
        }
        Reassociated(buf, chunk, Incoming());
        buf := buf + chunk;
      }
      FrontOf(buf, Incoming());
      r := Some(buf);
    }

    /** One packet. */
    method ReceivePacket() returns (r: Option<Packet>)
      requires Valid()
      modifies this`chunks
      ensures Valid()
      ensures match Parse(old(Incoming()))
        case Got(p, rest) => r == Some(p) && Incoming() == rest
        case _ => r.None?
      ensures |Incoming()| <= |old(Incoming())| && (r.Some? ==> |Incoming()| < |old(Incoming())|)
    {
      ghost var s := Incoming();
      var head := ReadExact(4);
      if head.None? {
        return None;
      }
      var length := FromLittleEndian(head.value);
      if length < 10 || length > MAX_PACKET + 1024 {
        return None;
      }
      var data := ReadExact(length);
      if data.None? {
        return None;
      }
      var d := data.value;
      assert d == s[4..4 + length] && Incoming() == s[4 + length..];
      r := Some(Packet(FromLittleEndian(d[..4]), FromLittleEndian(d[4..8]), d[8..|d| - 2]));
    }
  }

  // ------------------------------------------------------------------ command

  datatype Reply = Text(text: seq<byte>) | Unsent | Failed

  /** What a client makes of the packets that follow a command: the bodies that
      answer it, up to the sentinel's reply. */
  function Answer(stream: seq<byte>, req: int, sentinel: int): (Reply, seq<byte>)
    decreases |stream|
  {
    match Parse(stream)
    case Got(p, rest) =>
      if p.id == sentinel then (Text([]), rest)
      else if p.id == req then Prefixed(p.body, Answer(rest, req, sentinel))
      else if p.id == -1 then (Unsent, rest)
      else Answer(rest, req, sentinel)
    case _ => (Failed, [])
  }

  function Prefixed(text: seq<byte>, a: (Reply, seq<byte>)): (Reply, seq<byte>) {
    (if a.0.Text? then Text(text + a.0.text) else a.0, a.1)
  }

  lemma PrefixedTwice(text: seq<byte>, body: seq<byte>, a: (Reply, seq<byte>))
    ensures Prefixed(text, Prefixed(body, a)) == Prefixed(text + body, a)
    ensures Prefixed([], a) == a
  {
    if a.0.Text? {
      assert text + (body + a.0.text) == (text + body) + a.0.text;
      assert [] + a.0.text == a.0.text;
    }
  }

  function BodiesFor(ps: seq<Packet>, req: int): seq<byte> {
    if ps == [] then []
    else (if ps[0].id == req then ps[0].body else []) + BodiesFor(ps[1..], req)
  }

  lemma AnswerStep(p: Packet, rest: seq<byte>, req: int, sentinel: int)
    requires ValidPacket(p)
    ensures Answer(Encode(p) + rest, req, sentinel) ==
      if p.id == sentinel then (Text([]), rest)
      else if p.id == req then Prefixed(p.body, Answer(rest, req, sentinel))
      else if p.id == -1 then (Unsent, rest)
      else Answer(rest, req, sentinel)
  {
    ParseOfEncoded(p, rest);
  }

  /** Over a server that answers in order, a command's reply is the
      concatenation of its parts, and the stream is left exactly behind the
      sentinel's reply: the next command starts in step. */
  lemma {:induction false} SentinelEndsTheReply(ps: seq<Packet>, end: Packet, rest: seq<byte>, req: int, sentinel: int)
    requires forall p | p in ps :: ValidPacket(p)
    requires forall p | p in ps :: p.id != sentinel && p.id != -1
    requires ValidPacket(end) && end.id == sentinel
    ensures Answer(EncodeAll(ps) + (Encode(end) + rest), req, sentinel) == (Text(BodiesFor(ps, req)), rest)
  {
    EndOfReply(ps, EncodeAll(ps) + (Encode(end) + rest), end, rest, req, sentinel);
  }

  lemma {:induction false} EndOfReply(
      ps: seq<Packet>, stream: seq<byte>, end: Packet, rest: seq<byte>, req: int, sentinel: int)
    requires forall p | p in ps :: ValidPacket(p)
    requires forall p | p in ps :: p.id != sentinel && p.id != -1
    requires ValidPacket(end) && end.id == sentinel
    requires stream == EncodeAll(ps) + (Encode(end) + rest)
    ensures Answer(stream, req, sentinel) == (Text(BodiesFor(ps, req)), rest)
  {
    if ps == [] {
      assert stream == Encode(end) + rest;
      AnswerStep(end, rest, req, sentinel);
    } else {
      var more := EncodeAll(ps[1..]) + (Encode(end) + rest);
      assert stream == Encode(ps[0]) + more;
      EndOfReply(ps[1..], more, end, rest, req, sentinel);
      AnswerPrepend(ps[0], more, stream, req, sentinel, BodiesFor(ps[1..], req), rest);
    }
  }

  lemma AnswerPrepend(
      p: Packet, more: seq<byte>, stream: seq<byte>, req: int, sentinel: int, text: seq<byte>, rest: seq<byte>)
    requires ValidPacket(p) && p.id != sentinel && p.id != -1 && stream == Encode(p) + more
    requires Answer(more, req, sentinel) == (Text(text), rest)
    ensures Answer(stream, req, sentinel) == (Text((if p.id == req then p.body else []) + text), rest)
  {
    AnswerStep(p, more, req, sentinel);
    assert [] + text == text;
  }

  class Client {
    const sock: Socket
    var nextId: int

    constructor (sock: Socket)
      ensures this.sock == sock && nextId == 1
    {
      this.sock := sock;
      nextId := 1;
    }

    /** Sends a command and its sentinel and collects the reply.  A command
        that is reported as unsent never reached the server whole, or the server
        refused it. */
    method Command(cmd: seq<byte>, taken: nat, takenSentinel: nat) returns (r: Reply)
      requires sock.Valid() && Int32(nextId + 1)
      requires nextId >= 1
      modifies this`nextId, sock
      ensures sock.Valid()
      ensures if |cmd| > 1446 then r.Failed? && nextId == old(nextId) && unchanged(sock)
        else
          var req := old(nextId);
          var packet := Encode(Packet(req, EXEC_COMMAND, cmd));
          var probe := Encode(Packet(req + 1, RESPONSE_VALUE, []));
          && nextId == req + 2
          && if taken < |packet| then r.Unsent? && sock.sent == old(sock.sent) + packet[..taken]
             else if takenSentinel < |probe| then
               r.Failed? && sock.sent == old(sock.sent) + packet + probe[..takenSentinel]
             else
               && sock.sent == old(sock.sent) + packet + probe
               && var (answer, rest) := Answer(old(sock.Incoming()), req, req + 1);
                  r == answer && (!r.Failed? ==> sock.Incoming() == rest)
    {
      if |cmd| > MAX_COMMAND {
        return Failed;
      }
      var req, sentinel := nextId, nextId + 1;
      nextId := nextId + 2;
      var ok := sock.SendAll(Encode(Packet(req, EXEC_COMMAND, cmd)), taken);
      if !ok {
        return Unsent;
      }
      ok := sock.SendAll(Encode(Packet(sentinel, RESPONSE_VALUE, [])), takenSentinel);
      if !ok {
        return Failed;
      }
      r := Collect(req, sentinel);
    }

    /** Reads packets until the sentinel's reply. */
    method Collect(req: int, sentinel: int) returns (r: Reply)
      requires sock.Valid()
      modifies sock`chunks
      ensures sock.Valid()
      ensures var (answer, rest) := Answer(old(sock.Incoming()), req, sentinel);
        r == answer && (!r.Failed? ==> sock.Incoming() == rest)
    {
      var text: seq<byte> := [];
      ghost var whole := Answer(sock.Incoming(), req, sentinel);
      PrefixedTwice([], [], whole);
      while true
        invariant sock.Valid() && whole == Prefixed(text, Answer(sock.Incoming(), req, sentinel))
        decreases |sock.Incoming()|
      {
        ghost var stream := sock.Incoming();
        var p := sock.ReceivePacket();
        ghost var ahead := Answer(sock.Incoming(), req, sentinel);
        if p.None? {
          assert Answer(stream, req, sentinel) == (Failed, []);
          return Failed;
        }
        if p.value.id == sentinel {
          assert Answer(stream, req, sentinel) == (Text([]), sock.Incoming());
          assert text + [] == text;
          return Text(text);
        } else if p.value.id == req {
          assert Answer(stream, req, sentinel) == Prefixed(p.value.body, ahead);
          PrefixedTwice(text, p.value.body, ahead);
          text := text + p.value.body;
        } else if p.value.id == -1 {
          assert Answer(stream, req, sentinel) == (Unsent, sock.Incoming());
          return Unsent;
        }
      }
    }
  }

  /** When `Command` reports a failed send, the server, which runs complete
      packets only, has received exactly the earlier ones. */
  lemma UnsentCommandIsNotExecuted(ps: seq<Packet>, req: int, cmd: seq<byte>, taken: nat)
    requires forall p | p in ps :: ValidPacket(p)
    requires Int32(req) && |cmd| <= MAX_COMMAND
    requires taken < |Encode(Packet(req, EXEC_COMMAND, cmd))|
    ensures Packets(EncodeAll(ps) + Encode(Packet(req, EXEC_COMMAND, cmd))[..taken]) == ps
  {
    var p := Packet(req, EXEC_COMMAND, cmd);
    CutPacketIsIncomplete(p, taken);
    FramingRoundTrip(ps, Encode(p)[..taken], EncodeAll(ps) + Encode(p)[..taken]);
  }

  /** However a valid stream is cut into pieces, receiving one packet after the
      other yields it again. */
  method ReceiveAll(sock: Socket, ghost ps: seq<Packet>) returns (got: seq<Packet>)
    requires sock.Valid() && (forall p | p in ps :: ValidPacket(p)) && sock.Incoming() == EncodeAll(ps)
    modifies sock`chunks
    ensures got == ps && sock.Incoming() == []
  {
    got := [];
    while true
      invariant sock.Valid() && |got| <= |ps| && got == ps[..|got|]
      invariant sock.Incoming() == EncodeAll(ps[|got|..])
      decreases |sock.Incoming()|
    {
      ghost var left := ps[|got|..];
      if left != [] {
        ParseOfEncoded(left[0], EncodeAll(left[1..]));
      }
      var p := sock.ReceivePacket();
      if p.None? {
        assert left == [] && ps[..|ps|] == ps;
        return;
      }
      assert left[1..] == ps[|got| + 1..];
      got := got + [p.value];
    }
  }
}
