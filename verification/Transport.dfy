/** PTP/IP packet framing and the receive loops of internal/canon/transport.go.
    The bytes the camera has sent and nobody has read yet are a sequence; reading
    past its end fails, as a closed or timed-out socket does. */
module Transport {
  import opened Bytes
  import opened Ptp

  datatype Packet = Packet(kind: uint32, payload: seq<byte>)

  datatype Error =
    | ReadFailed
    | BadLength
    | ShortResponse
    | UnexpectedResponse
    | TooLarge
    | Refused(code: uint16)
    | WriteFailed
    | Crashed

  const MAX_INT: int := 0x7FFF_FFFF_FFFF_FFFF

  /** The most bytes the Go runtime allocates at once on a 64-bit machine; making a larger
      slice panics, which ends the process. */
  const MAX_ALLOC: int := 0x1_0000_0000_0000

  // ---- One packet ----

  predicate Fits(p: Packet) {
    8 + |p.payload| < 0x1_0000_0000
  }

  /** The bytes sendPacket writes; the length field is truncated to 32 bits. */
  function Frame(p: Packet): (b: seq<byte>)
    ensures |b| == 8 + |p.payload|
  {
    PutU32(Truncate32(8 + |p.payload|)) + PutU32(p.kind) + p.payload
  }

  datatype Received =
    | Got(packet: Packet, rest: seq<byte>)
    | Broken(error: Error, rest: seq<byte>)

  /** What recvPacket makes of the unread bytes, and what it leaves unread. */
  function Receive(s: seq<byte>): (r: Received)
    ensures r.Got? ==> |r.rest| + 8 + |r.packet.payload| == |s|
  {
    if |s| < 8 then Broken(ReadFailed, [])
    else
      var length := GetU32(s[0..4]);
      if length < 8 then Broken(BadLength, s[8..])
      else if length > |s| then Broken(ReadFailed, [])
      else Got(Packet(GetU32(s[4..8]), s[8..length]), s[length..])
  }

  /** Receiving inverts sending for exactly the packets whose length fits its field. */
  lemma FrameRoundTrip(p: Packet, rest: seq<byte>)
    ensures Receive(Frame(p) + rest) == Got(p, rest) <==> Fits(p)
  {
    var s := Frame(p) + rest;
    assert s[0..4] == PutU32(Truncate32(8 + |p.payload|));
    assert s[4..8] == PutU32(p.kind);
    if Fits(p) {
      assert s[8..8 + |p.payload|] == p.payload && s[8 + |p.payload|..] == rest;
    }
  }

  lemma PutGet32(b: seq<byte>)
    requires |b| == 4
    ensures PutU32(GetU32(b)) == b
  {
    var n := GetU32(b) as int;
    var upper := b[1] as int + 0x100 * b[2] as int + 0x1_0000 * b[3] as int;
    assert n == b[0] as int + 0x100 * upper;
    assert n / 0x100 == upper && upper / 0x100 == b[2] as int + 0x100 * b[3] as int;
  }

  /** Bytes are received as a packet exactly when the length they begin with is at least 8
      and has arrived, and then they are the bytes of that packet. A shorter length leaves
      the stream behind the header, a missing rest leaves nothing. */
  lemma ReceiveIff(s: seq<byte>, length: uint32)
    requires Spells32(s, 0, length)
    ensures match Receive(s)
            case Got(p, rest) => 8 <= |s| && 8 <= length <= |s| && |p.payload| + 8 == length && Frame(p) + rest == s
            case Broken(e, rest) =>
              if |s| >= 8 && length < 8 then e == BadLength && rest == s[8..]
              else (|s| < 8 || length > |s|) && e == ReadFailed && rest == []
  {
    hide PutU32, GetU32;
    LittleEndian32(s, 0, length);
    if |s| >= 8 && 8 <= length <= |s| {
      PutGet32(s[0..4]);
      PutGet32(s[4..8]);
      assert s == s[0..4] + s[4..8] + s[8..length] + s[length..];
    }
  }

  /** Where the length, the kind and the payload of a packet stand on the wire. */
  lemma FrameBytes(p: Packet)
    requires Fits(p)
    ensures Spells32(Frame(p), 0, 8 + |p.payload|) && Spells32(Frame(p), 4, p.kind) && Frame(p)[8..] == p.payload
  {
    var b := Frame(p);
    assert b[0..4] == PutU32(8 + |p.payload|) && b[4..8] == PutU32(p.kind);
    LittleEndian32(b, 0, 8 + |p.payload|);
    LittleEndian32(b, 4, p.kind);
  }

  lemma SmallWord(n: uint32)
    requires n < 0x100
    ensures PutU32(n) == [n, 0, 0, 0]
  {
  }

  lemma EmptyPacketBytes(kind: uint32)
    requires kind < 0x100
    ensures Frame(Packet(kind, [])) == [8, 0, 0, 0, kind, 0, 0, 0]
  {
    hide PutU32;
    SmallWord(8);
    SmallWord(kind);
  }

  /** A ping and a pong, byte for byte. */
  lemma PingBytes(rest: seq<byte>)
    ensures Receive([8, 0, 0, 0, 13, 0, 0, 0] + rest) == Got(Packet(PING, []), rest)
    ensures Frame(Packet(PONG, [])) == [8, 0, 0, 0, 14, 0, 0, 0]
  {
    hide Frame, Receive;
    EmptyPacketBytes(PING);
    EmptyPacketBytes(PONG);
    FrameRoundTrip(Packet(PING, []), rest);
  }

  function FrameAll(ps: seq<Packet>): seq<byte> {
    if ps == [] then [] else Frame(ps[0]) + FrameAll(ps[1..])
  }

  lemma {:induction false} FrameAllAppend(ps: seq<Packet>, qs: seq<Packet>)
    ensures FrameAll(ps + qs) == FrameAll(ps) + FrameAll(qs)
  {
    if ps == [] {
      assert ps + qs == qs;
    } else {
      assert (ps + qs)[1..] == ps[1..] + qs;
      FrameAllAppend(ps[1..], qs);
    }
  }

  ghost predicate AllFit(ps: seq<Packet>) {
    forall p | p in ps :: Fits(p)
  }

  function Pings(ps: seq<Packet>): nat {
    if ps == [] then 0 else (if ps[0].kind == PING then 1 else 0) + Pings(ps[1..])
  }

  /** `k` pong packets, as bytes. */
  function Pongs(k: nat): seq<byte> {
    if k == 0 then [] else Pongs(k - 1) + Frame(Packet(PONG, []))
  }

  lemma {:induction false} PongsAre(k: nat, i: nat)
    requires i < k
    ensures |Pongs(k)| == 8 * k && Pongs(k)[8 * i..8 * i + 8] == [8, 0, 0, 0, 14, 0, 0, 0]
  {
    hide Frame;
    PingBytes([]);
    if k > 1 {
      PongsAre(k - 1, if i < k - 1 then i else 0);
    }
    assert Pongs(k) == Pongs(k - 1) + [8, 0, 0, 0, 14, 0, 0, 0];
    assert |Pongs(k - 1)| == 8 * (k - 1);
    if i < k - 1 {
      assert Pongs(k)[8 * i..8 * i + 8] == Pongs(k - 1)[8 * i..8 * i + 8];
    }
  }

  // ---- A receive loop ----

  /** A receive loop either goes on with a grown buffer or returns. */
  datatype Step<+T> = Continue(buf: seq<byte>) | Return(result: Result<T, Error>)

  type Rule<!T> = (Packet, seq<byte>) -> Step<T>

  datatype Reply<+T> = Reply(result: Result<T, Error>, rest: seq<byte>, pongs: nat)

  /** What a loop that applies `rule` to each packet returns, leaves unread and pongs. */
  function Drive<T>(s: seq<byte>, rule: Rule<T>, buf: seq<byte>): Reply<T>
    decreases |s|
  {
    match Receive(s)
    case Broken(e, rest) => Reply(Err(e), rest, 0)
    case Got(p, rest) =>
      var pong := if p.kind == PING then 1 else 0;
      match rule(p, buf)
      case Return(r) => Reply(r, rest, pong)
      case Continue(b) =>
        var tail := Drive(rest, rule, b);
        tail.(pongs := tail.pongs + pong)
  }

  /** `reply` is `tail` after `pongs` pongs have already been sent. */
  ghost predicate Resumes<T>(reply: Reply<T>, tail: Reply<T>, pongs: nat) {
    reply.result == tail.result && reply.rest == tail.rest && reply.pongs == tail.pongs + pongs
  }

  lemma DriveTurn<T>(s: seq<byte>, rule: Rule<T>, buf: seq<byte>, step: Step<T>)
    requires Receive(s).Got? && step == rule(Receive(s).packet, buf)
    ensures var Got(p, rest) := Receive(s);
            var pong := if p.kind == PING then 1 else 0;
            match step
            case Return(r) => Drive(s, rule, buf) == Reply(r, rest, pong)
            case Continue(b) => Resumes(Drive(s, rule, buf), Drive(rest, rule, b), pong)
  {
  }

  /** One turn of recvData's loop. */
  function DataStep(p: Packet, tx: uint32, buf: seq<byte>): Step<seq<byte>> {
    var n := |p.payload|;
    if p.kind == START_DATA then
      if n >= 4 && GetU32(p.payload[0..4]) != tx then Continue(buf)
      else if n >= 12 && GetU64(p.payload[4..12]) > MAX_INT then Return(Err(TooLarge))
      else if n >= 12 && GetU64(p.payload[4..12]) > MAX_ALLOC then Return(Err(Crashed))
      else if n >= 12 && GetU64(p.payload[4..12]) > 0 then Continue([])
      else Continue(buf)
    else if p.kind == DATA then
      if n >= 4 && GetU32(p.payload[0..4]) == tx then Continue(buf + p.payload[4..]) else Continue(buf)
    else if p.kind == END_DATA then
      if n < 4 then Return(Ok(buf))
      else if GetU32(p.payload[0..4]) == tx then Return(Ok(buf + p.payload[4..]))
      else Continue(buf)
    else if p.kind == CMD_RESPONSE then Return(Err(UnexpectedResponse))
    else Continue(buf)
  }

  /** One turn of recvResponse's loop. */
  function ResponseStep(p: Packet, tx: uint32, buf: seq<byte>): Step<seq<uint32>> {
    if p.kind != CMD_RESPONSE then Continue(buf)
    else if |p.payload| < 6 then Return(Err(ShortResponse))
    else if GetU32(p.payload[2..6]) != tx then Continue(buf)
    else if GetU16(p.payload[0..2]) != RC_OK then Return(Err(Refused(GetU16(p.payload[0..2]))))
    else Return(Ok(GetWords(p.payload[6..])))
  }

  function DataRule(tx: uint32): Rule<seq<byte>> {
    (p, buf) => DataStep(p, tx, buf)
  }

  function ResponseRule(tx: uint32): Rule<seq<uint32>> {
    (p, buf) => ResponseStep(p, tx, buf)
  }

  // ---- The command channel ----

  class Channel {
    var incoming: seq<byte>
    var outgoing: seq<byte>
    var txID: uint32

    constructor (stream: seq<byte>)
      ensures incoming == stream && outgoing == [] && txID == 0
    {
      incoming, outgoing, txID := stream, [], 0;
    }

    /** `written` is whether the connection takes the bytes. */
    method SendPacket(p: Packet, written: bool) returns (ok: bool)
      modifies this`outgoing
      ensures ok == written
      ensures outgoing == old(outgoing) + if written then Frame(p) else []
    {
      var total := 8 + |p.payload|;
      if !written {
        return false;
      }
      ok := true;
      outgoing := outgoing + (PutU32(Truncate32(total)) + PutU32(p.kind) + p.payload);
    }

    method RecvPacket() returns (r: Result<Packet, Error>)
      modifies this`incoming
      ensures match Receive(old(incoming))
              case Got(p, rest) => r == Ok(p) && incoming == rest
              case Broken(e, rest) => r == Err(e) && incoming == rest
    {
      if |incoming| < 8 {
        incoming := [];
        return Err(ReadFailed);
      }
      var hdr := incoming[..8];
      ghost var all := incoming;
      assert hdr[0..4] == all[0..4] && hdr[4..8] == all[4..8];
      incoming := incoming[8..];
      var length := GetU32(hdr[0..4]) as int;
      if length < 8 {
        return Err(BadLength);
      }
      var n := length - 8;
      if n > |incoming| {
        incoming := [];
        return Err(ReadFailed);
      }
      var payload := incoming[..n];
      assert payload == all[8..length] && incoming[n..] == all[length..];
      incoming := incoming[n..];
      return Ok(Packet(GetU32(hdr[4..8]), payload));
    }

    method NextTxID() returns (id: uint32)
      modifies this`txID
      ensures id == txID == (old(txID) + 1) as int % 0x1_0000_0000
    {
      txID := (txID as int + 1) % 0x1_0000_0000;
      id := txID;
    }

    method SendCmdRequest(opcode: uint16, tx: uint32, hostSendsData: bool, params: seq<uint32>, written: bool)
      returns (ok: bool)
      modifies this`outgoing
      ensures ok == written
      ensures outgoing == old(outgoing) + if written then Frame(Request(opcode, tx, hostSendsData, params)) else []
    {
      var payload := PutU32(if hostSendsData then 2 else 1) + PutU16(opcode) + PutU32(tx);
      ghost var fixed := payload;
      assert PutWords(params[..0]) == [];
      for i := 0 to |params|
        invariant payload + PutWords(params[i..]) == fixed + PutWords(params)
      {
        payload := payload + PutU32(params[i]);
        assert params[i..][1..] == params[i + 1..];
      }
      assert payload == fixed + PutWords(params);
      ok := SendPacket(Packet(CMD_REQUEST, payload), written);
    }

    method RecvData(tx: uint32) returns (result: Result<seq<byte>, Error>)
      modifies this`incoming, this`outgoing
      ensures var reply := Drive(old(incoming), DataRule(tx), []);
              && result == reply.result
              && incoming == reply.rest
              && outgoing == old(outgoing) + Pongs(reply.pongs)
    {
      hide Receive, Frame, GetU32, GetU64;
      var buf: seq<byte> := [];
      ghost var pongs := 0;
      ghost var reply := Drive(incoming, DataRule(tx), []);
      while true
        invariant Resumes(reply, Drive(incoming, DataRule(tx), buf), pongs)
        invariant outgoing == old(outgoing) + Pongs(pongs)
        decreases |incoming|
      {
        ghost var unread := incoming;
        var r := RecvPacket();
        if r.Err? {
          return Err(r.error);
        }
        var p := r.value;
        DriveTurn(unread, DataRule(tx), buf, DataStep(p, tx, buf));
        var n := |p.payload|;
        if p.kind == START_DATA {
          if n >= 4 && GetU32(p.payload[0..4]) != tx {
            continue;
          }
          if n >= 12 {
            var totalLen := GetU64(p.payload[4..12]);
            if totalLen > 0 {
              if totalLen > MAX_INT {
                return Err(TooLarge);
              }
              if totalLen > MAX_ALLOC {
                return Err(Crashed);
              }
              buf := [];
            }
          }
        } else if p.kind == DATA {
          if n >= 4 {
            if GetU32(p.payload[0..4]) != tx {
              continue;
            }
            buf := buf + p.payload[4..];
          }
        } else if p.kind == END_DATA {
          if n >= 4 {
            if GetU32(p.payload[0..4]) != tx {
              continue;
            }
            buf := buf + p.payload[4..];
          }
          return Ok(buf);
        } else if p.kind == CMD_RESPONSE {
          return Err(UnexpectedResponse);
        } else if p.kind == PING {
          var _ := SendPacket(Packet(PONG, []), true);
          pongs := pongs + 1;
        }
      }
    }

    method RecvResponse(tx: uint32) returns (result: Result<seq<uint32>, Error>)
      modifies this`incoming, this`outgoing
      ensures var reply := Drive(old(incoming), ResponseRule(tx), []);
              && result == reply.result
              && incoming == reply.rest
              && outgoing == old(outgoing) + Pongs(reply.pongs)
    {
      hide Receive, Frame, GetU16, GetU32, GetWords;
      ghost var pongs := 0;
      ghost var reply := Drive(incoming, ResponseRule(tx), []);
      while true
        invariant Resumes(reply, Drive(incoming, ResponseRule(tx), []), pongs)
        invariant outgoing == old(outgoing) + Pongs(pongs)
        decreases |incoming|
      {
        ghost var unread := incoming;
        var r := RecvPacket();
        if r.Err? {
          return Err(r.error);
        }
        var p := r.value;
        DriveTurn(unread, ResponseRule(tx), [], ResponseStep(p, tx, []));
        if p.kind == CMD_RESPONSE {
          if |p.payload| < 6 {
            return Err(ShortResponse);
          }
          var rc := GetU16(p.payload[0..2]);
          if GetU32(p.payload[2..6]) != tx {
            continue;
          }
          if rc != RC_OK {
            return Err(Refused(rc));
          }
          var params := ReadWords(p.payload[6..]);
          return Ok(params);
        } else if p.kind == PING {
          var _ := SendPacket(Packet(PONG, []), true);
          pongs := pongs + 1;
        }
      }
    }
  }

  /** The request packet of a transaction. */
  function Request(opcode: uint16, tx: uint32, hostSendsData: bool, params: seq<uint32>): Packet {
    Packet(CMD_REQUEST, PutU32(if hostSendsData then 2 else 1) + PutU16(opcode) + PutU32(tx) + PutWords(params))
  }

  /** Where everything stands in a request: the data phase, the operation, the transaction
      and its parameters. */
  lemma RequestBytes(opcode: uint16, tx: uint32, hostSendsData: bool, params: seq<uint32>)
    ensures var b := Request(opcode, tx, hostSendsData, params).payload;
            && |b| == 10 + 4 * |params|
            && Spells32(b, 0, if hostSendsData then 2 else 1) && Spells16(b, 4, opcode) && Spells32(b, 6, tx)
            && forall i :: 0 <= i < |params| ==> Spells32(b, 10 + 4 * i, params[i])
  {
    hide Spells16, Spells32, PutU16, PutU32, GetU16, GetU32;
    var b := Request(opcode, tx, hostSendsData, params).payload;
    assert b[0..4] == PutU32(if hostSendsData then 2 else 1) && b[4..6] == PutU16(opcode) && b[6..10] == PutU32(tx);
    LittleEndian32(b, 0, if hostSendsData then 2 else 1);
    LittleEndian16(b, 4, opcode);
    LittleEndian32(b, 6, tx);
    assert b[10..|b|] == PutWords(params);
    forall i | 0 <= i < |params|
      ensures Spells32(b, 10 + 4 * i, params[i])
    {
      WordAt(params, i);
      SliceOfSlice(b, 10, |b|, 4 * i, 4 * i + 4);
      LittleEndian32(b, 10 + 4 * i, params[i]);
    }
  }

  // ---- Loops over whole packets ----

  /** The same loop run over whole packets: done, or out of packets. */
  datatype Progress<+T> =
    | Done(result: Result<T, Error>, left: seq<Packet>)
    | Starved(buf: seq<byte>)

  function Over<T>(ps: seq<Packet>, rule: Rule<T>, buf: seq<byte>): Progress<T> {
    if ps == [] then Starved(buf)
    else
      match rule(ps[0], buf)
      case Return(r) => Done(r, ps[1..])
      case Continue(b) => Over(ps[1..], rule, b)
  }

  /** Over framed packets the byte loop does what the packet loop does. */
  lemma {:induction false} DriveOver<T>(ps: seq<Packet>, rest: seq<byte>, rule: Rule<T>, buf: seq<byte>)
    requires AllFit(ps)
    ensures var r := Drive(FrameAll(ps) + rest, rule, buf);
            match Over(ps, rule, buf)
            case Done(result, left) =>
              Pings(left) <= Pings(ps) && r == Reply(result, FrameAll(left) + rest, Pings(ps) - Pings(left))
            case Starved(b) =>
              var tail := Drive(rest, rule, b);
              r == tail.(pongs := tail.pongs + Pings(ps))
  {
    if ps == [] {
      assert FrameAll(ps) + rest == rest;
    } else {
      assert FrameAll(ps) + rest == Frame(ps[0]) + (FrameAll(ps[1..]) + rest);
      FrameRoundTrip(ps[0], FrameAll(ps[1..]) + rest);
      match rule(ps[0], buf)
      case Return(r) =>
      case Continue(b) => DriveOver(ps[1..], rest, rule, b);
    }
  }

  // ---- Noise ----

  /** The packets that are not noise, in order. */
  function Sift(ps: seq<Packet>, noise: Packet -> bool): seq<Packet> {
    if ps == [] then []
    else if noise(ps[0]) then Sift(ps[1..], noise)
    else [ps[0]] + Sift(ps[1..], noise)
  }

  /** Packets the rule ignores change nothing but what is left unread. */
  lemma {:induction false} SiftOver<T>(ps: seq<Packet>, rule: Rule<T>, buf: seq<byte>, noise: Packet -> bool)
    requires forall p, b :: noise(p) ==> rule(p, b) == Continue(b)
    ensures match Over(ps, rule, buf)
            case Done(r, left) =>
              && Over(Sift(ps, noise), rule, buf) == Done(r, Sift(left, noise))
              && |left| <= |ps| && left == ps[|ps| - |left|..]
            case Starved(b) => Over(Sift(ps, noise), rule, buf) == Starved(b)
  {
    if ps != [] {
      match rule(ps[0], buf)
      case Return(r) =>
        assert ([ps[0]] + Sift(ps[1..], noise))[1..] == Sift(ps[1..], noise);
      case Continue(b) =>
        SiftOver(ps[1..], rule, b, noise);
        if !noise(ps[0]) {
          assert ([ps[0]] + Sift(ps[1..], noise))[1..] == Sift(ps[1..], noise);
        }
    }
  }

  lemma {:induction false} SiftKeeps(ps: seq<Packet>, noise: Packet -> bool, p: Packet)
    requires p in ps && !noise(p)
    ensures p in Sift(ps, noise)
  {
    if p != ps[0] {
      SiftKeeps(ps[1..], noise, p);
    }
  }

  /** `ps` is `core` with noise mixed in before its last packet. */
  ghost predicate MixedIn(ps: seq<Packet>, noise: Packet -> bool, core: seq<Packet>) {
    AllFit(ps) && ps != [] && !noise(ps[|ps| - 1]) && Sift(ps, noise) == core
  }

  /** A loop that returns after exactly the packets of `core` returns after exactly
      the packets of any mixture of `core` with packets it ignores. */
  lemma ThroughNoise<T>(ps: seq<Packet>, rest: seq<byte>, rule: Rule<T>, noise: Packet -> bool, core: seq<Packet>,
                        result: Result<T, Error>)
    requires MixedIn(ps, noise, core)
    requires forall p, b :: noise(p) ==> rule(p, b) == Continue(b)
    requires Over(core, rule, []) == Done(result, [])
    ensures Drive(FrameAll(ps) + rest, rule, []) == Reply(result, rest, Pings(ps))
  {
    SiftOver(ps, rule, [], noise);
    var over := Over(ps, rule, []);
    if over.left != [] {
      assert over.left[|over.left| - 1] == ps[|ps| - 1];
      SiftKeeps(over.left, noise, ps[|ps| - 1]);
    }
    DriveOver(ps, rest, rule, []);
    assert FrameAll([]) + rest == rest;
  }

  // ---- The data phase ----

  function Start(tx: uint32, total: uint64): Packet {
    Packet(START_DATA, PutU32(tx) + PutU64(total))
  }

  function Chunk(tx: uint32, data: seq<byte>): Packet {
    Packet(DATA, PutU32(tx) + data)
  }

  function End(tx: uint32, data: seq<byte>): Packet {
    Packet(END_DATA, PutU32(tx) + data)
  }

  function Chunks(tx: uint32, parts: seq<seq<byte>>): (ps: seq<Packet>)
    ensures |ps| == |parts|
  {
    seq(|parts|, i requires 0 <= i < |parts| => Chunk(tx, parts[i]))
  }

  /** A payload sent as `parts` and a last part `last`. */
  function DataPhase(tx: uint32, total: uint64, parts: seq<seq<byte>>, last: seq<byte>): seq<Packet> {
    [Start(tx, total)] + Chunks(tx, parts) + [End(tx, last)]
  }

  /** Packets recvData passes over: pings, unknown types, and data-phase packets of
      other transactions or too short to name one. A response is never noise. */
  predicate DataNoise(p: Packet, tx: uint32) {
    var foreign := |p.payload| >= 4 && GetU32(p.payload[0..4]) != tx;
    if p.kind == START_DATA || p.kind == DATA then |p.payload| < 4 || foreign
    else if p.kind == END_DATA then foreign
    else p.kind != CMD_RESPONSE
  }

  function DataNoiseFor(tx: uint32): Packet -> bool {
    p => DataNoise(p, tx)
  }

  lemma OwnDataSteps(tx: uint32, data: seq<byte>, buf: seq<byte>)
    ensures DataStep(Chunk(tx, data), tx, buf) == Continue(buf + data)
    ensures DataStep(End(tx, data), tx, buf) == Return(Ok(buf + data))
  {
    hide GetU32;
    var payload := PutU32(tx) + data;
    assert payload[0..4] == PutU32(tx) && payload[4..] == data;
  }

  lemma FlattenFirst(buf: seq<byte>, parts: seq<seq<byte>>, last: seq<byte>)
    requires parts != []
    ensures buf + parts[0] + (Flatten(parts[1..]) + last) == buf + (Flatten(parts) + last)
  {
  }

  lemma {:induction false} ChunksOver(tx: uint32, parts: seq<seq<byte>>, last: seq<byte>, buf: seq<byte>)
    ensures Over(Chunks(tx, parts) + [End(tx, last)], DataRule(tx), buf) == Done(Ok(buf + (Flatten(parts) + last)), [])
  {
    hide DataStep, Chunk, End;
    var ps := Chunks(tx, parts) + [End(tx, last)];
    if parts == [] {
      assert ps == [End(tx, last)];
      OwnDataSteps(tx, last, buf);
      assert Flatten(parts) + last == last;
    } else {
      hide Flatten;
      OwnDataSteps(tx, parts[0], buf);
      assert ps[0] == Chunk(tx, parts[0]);
      assert ps[1..] == Chunks(tx, parts[1..]) + [End(tx, last)];
      ChunksOver(tx, parts[1..], last, buf + parts[0]);
      FlattenFirst(buf, parts, last);
    }
  }

  lemma DataPhaseOver(tx: uint32, total: uint64, parts: seq<seq<byte>>, last: seq<byte>)
    requires total <= MAX_ALLOC
    ensures Over(DataPhase(tx, total, parts, last), DataRule(tx), []) == Done(Ok(Flatten(parts) + last), [])
  {
    var ps := DataPhase(tx, total, parts, last);
    assert ps[0].payload[0..4] == PutU32(tx) && ps[0].payload[4..12] == PutU64(total);
    assert ps[1..] == Chunks(tx, parts) + [End(tx, last)];
    ChunksOver(tx, parts, last, []);
    assert [] + (Flatten(parts) + last) == Flatten(parts) + last;
  }

  /** A start packet that announces more than can be allocated ends the loop: the largest
      announcements are refused, and those between the two limits crash the process. */
  lemma HugeAnnouncements(tx: uint32, total: uint64, buf: seq<byte>, rest: seq<byte>)
    ensures var reply := Drive(Frame(Start(tx, total)) + rest, DataRule(tx), buf);
            && (total > MAX_INT ==> reply == Reply(Err(TooLarge), rest, 0))
            && (MAX_ALLOC < total <= MAX_INT ==> reply == Reply(Err(Crashed), rest, 0))
            && (total <= MAX_ALLOC ==> reply == Drive(rest, DataRule(tx), if total > 0 then [] else buf))
  {
    hide GetU32, GetU64, Frame, Receive;
    FrameRoundTrip(Start(tx, total), rest);
    assert Start(tx, total).payload[0..4] == PutU32(tx) && Start(tx, total).payload[4..12] == PutU64(total);
  }

  /** However a payload is split and whatever noise is mixed in, recvData returns the
      payload, leaves the bytes behind it unread and answers each ping with one pong. */
  lemma PayloadReceived(ps: seq<Packet>, rest: seq<byte>, tx: uint32, total: uint64, parts: seq<seq<byte>>,
                        last: seq<byte>)
    requires MixedIn(ps, DataNoiseFor(tx), DataPhase(tx, total, parts, last))
    requires total <= MAX_ALLOC
    ensures Drive(FrameAll(ps) + rest, DataRule(tx), []) == Reply(Ok(Flatten(parts) + last), rest, Pings(ps))
  {
    DataPhaseOver(tx, total, parts, last);
    ThroughNoise(ps, rest, DataRule(tx), DataNoiseFor(tx),
                 DataPhase(tx, total, parts, last), Ok(Flatten(parts) + last));
  }

  /** Packets at which recvData returns. */
  predicate Stops(p: Packet, tx: uint32) {
    || p.kind == CMD_RESPONSE
    || (p.kind == END_DATA && !DataNoise(p, tx))
    || (p.kind == START_DATA && !DataNoise(p, tx) && |p.payload| >= 12 && GetU64(p.payload[4..12]) > MAX_ALLOC)
  }

  /** The first packet recvData stops at is one that ends the data. */
  predicate EndComesFirst(ps: seq<Packet>, tx: uint32) {
    ps != [] && if Stops(ps[0], tx) then ps[0].kind == END_DATA else EndComesFirst(ps[1..], tx)
  }

  /** recvData succeeds exactly when the first packet it stops at ends the data: a
      response of any transaction that comes earlier aborts it. */
  lemma {:induction false} DataSucceedsIff(ps: seq<Packet>, tx: uint32, buf: seq<byte>)
    requires AllFit(ps)
    ensures Drive(FrameAll(ps), DataRule(tx), buf).result.Ok? <==> EndComesFirst(ps, tx)
  {
    hide GetU32, GetU64, Receive, Frame;
    if ps == [] {
      assert Receive([]) == Broken(ReadFailed, []) by { NothingToReceive(); }
    } else {
      FrameRoundTrip(ps[0], FrameAll(ps[1..]));
      if !Stops(ps[0], tx) {
        DataSucceedsIff(ps[1..], tx, DataStep(ps[0], tx, buf).buf);
      }
    }
  }

  lemma NothingToReceive()
    ensures Receive([]) == Broken(ReadFailed, [])
  {
  }

  /** A response left over from transaction `stale` aborts the data phase of `tx`,
      where a left-over data packet would be passed over. */
  lemma StaleResponseAborts(stale: uint32, tx: uint32, data: seq<byte>, rest: seq<byte>)
    requires stale != tx
    ensures var late := Packet(CMD_RESPONSE, PutU16(RC_OK) + PutU32(stale));
            Drive(Frame(late) + rest, DataRule(tx), data) == Reply(Err(UnexpectedResponse), rest, 0)
    ensures Fits(Chunk(stale, data)) ==>
            Drive(Frame(Chunk(stale, data)) + rest, DataRule(tx), data) == Drive(rest, DataRule(tx), data)
  {
    FrameRoundTrip(Packet(CMD_RESPONSE, PutU16(RC_OK) + PutU32(stale)), rest);
    FrameRoundTrip(Chunk(stale, data), rest);
    assert Chunk(stale, data).payload[0..4] == PutU32(stale);
  }

  /** Packets too short for what they should say: an end without a transaction ends the data,
      a start without a length changes nothing, and a response without a transaction fails. */
  lemma ShortPackets(payload: seq<byte>, tx: uint32, buf: seq<byte>, rest: seq<byte>)
    ensures |payload| < 4 ==>
              Drive(Frame(Packet(END_DATA, payload)) + rest, DataRule(tx), buf) == Reply(Ok(buf), rest, 0)
    ensures |payload| < 12 && Fits(Packet(START_DATA, payload)) ==>
              Drive(Frame(Packet(START_DATA, payload)) + rest, DataRule(tx), buf) == Drive(rest, DataRule(tx), buf)
    ensures var response := Frame(Packet(CMD_RESPONSE, payload));
            |payload| < 6 ==> Drive(response + rest, ResponseRule(tx), []) == Reply(Err(ShortResponse), rest, 0)
  {
    hide Frame, Receive, GetU32, GetU64;
    FrameRoundTrip(Packet(END_DATA, payload), rest);
    FrameRoundTrip(Packet(START_DATA, payload), rest);
    FrameRoundTrip(Packet(CMD_RESPONSE, payload), rest);
  }
}
