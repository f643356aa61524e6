/** Connection life cycle of internal/canon/session.go: who owns the two camera sockets
    while connecting, failing at any step, retrying and closing. */
module Session {
  import opened Bytes
  import opened Ptp
  import opened Transport
  import opened Transactions
  import opened HandleUrl

  // ---- What the outside does during one attempt ----

  /** Whether listening works, what the camera sends on each channel (None when it cannot
      be dialled or does not dial in), how many requests can be written before the
      connection breaks, and whether the wait for the camera to settle is not cancelled. */
  datatype Camera = Camera(listens: bool, cmd: Option<seq<byte>>, evt: Option<seq<byte>>, sends: nat, settles: bool)

  /** The connection number of the acknowledgement, and what is unread behind it. */
  function CommandAck(s: seq<byte>): Option<(uint32, seq<byte>)> {
    match Receive(s)
    case Broken(_, _) => None
    case Got(p, rest) =>
      if p.kind == INIT_COMMAND_ACK && |p.payload| >= 4 then Some((GetU32(p.payload[0..4]), rest)) else None
  }

  predicate EventAck(s: seq<byte>) {
    Receive(s).Got? && Receive(s).packet.kind == INIT_EVENT_ACK
  }

  /** What is unread after a command with this ID, if it is answered with OK. */
  function Commanded(s: Option<seq<byte>>, id: uint32): Option<seq<byte>> {
    if s.None? then None
    else
      var reply := Exchange(Command, s.value, id);
      if reply.result.Err? then None else Some(reply.rest)
  }

  /** What is unread after OpenSession and the two mode commands. */
  function SessionOpened(s: seq<byte>): Option<seq<byte>> {
    Commanded(Commanded(Commanded(Some(s), 1), 2), 3)
  }

  /** Both channels are open and acknowledged. */
  predicate Acked(c: Camera) {
    && c.cmd.Some? && CommandAck(c.cmd.value).Some?
    && c.evt.Some? && EventAck(c.evt.value)
    && c.sends >= 2
  }

  /** The attempt goes through; the command channel's unread bytes when it does. */
  function Accepted(c: Camera, needsListener: bool): Option<seq<byte>> {
    if (needsListener && !c.listens) || !Acked(c) || c.sends < 5 || !c.settles then None
    else SessionOpened(CommandAck(c.cmd.value).value.1)
  }

  /** One session command and the pongs sent while waiting for its answer. */
  function Spoken(s: seq<byte>, id: uint32, opcode: uint16): seq<byte> {
    Frame(Request(opcode, id, false, [1])) + Pongs(Exchange(Command, s, id).pongs)
  }

  /** All that is written to the command channel after the first packet. */
  function AllSpoken(s: seq<byte>): seq<byte>
    requires SessionOpened(s).Some?
  {
    var remote := Commanded(Some(s), 1).value;
    var events := Commanded(Some(remote), 2).value;
    Spoken(s, 1, OC_OPEN_SESSION) + Spoken(remote, 2, OC_SET_REMOTE_MODE) + Spoken(events, 3, OC_SET_EVENT_MODE)
  }

  /** What the client has written to the command channel of an accepted connection. */
  function Greeting(guid: seq<byte>, c: Camera): seq<byte>
    requires Accepted(c, false).Some?
  {
    Frame(InitRequest(guid)) + AllSpoken(CommandAck(c.cmd.value).value.1)
  }

  /** GUID, name and protocol version 1.0. */
  function InitRequest(guid: seq<byte>): Packet {
    Packet(INIT_COMMAND_REQUEST, guid + Utf16LE("canon-proxy") + PutU32(0x0001_0000))
  }

  // ---- Retrying ----

  /** Connected, with the bytes that are then unread on the command channel. */
  datatype Outcome = Connected(unread: seq<byte>) | Failed | Cancelled

  /** The outcome from the `attempt`-th try on, and the seconds waited between tries. */
  function Retry(attempt: nat, backoff: nat, listenMode: bool, listening: bool, world: nat -> Camera,
                 interrupted: nat -> bool): (Outcome, seq<nat>)
    decreases 6 - attempt
  {
    var accepted := Accepted(world(attempt), listenMode && !listening);
    if accepted.Some? then (Connected(accepted.value), [])
    else if attempt >= 6 then (Failed, [])
    else if interrupted(attempt) then (Cancelled, [])
    else
      var rest := Retry(attempt + 1, if backoff < 16 then backoff * 2 else backoff,
                        listenMode, listening || (listenMode && world(attempt).listens), world, interrupted);
      (rest.0, [backoff] + rest.1)
  }

  function After(waits: seq<nat>, rest: (Outcome, seq<nat>)): (Outcome, seq<nat>) {
    (rest.0, waits + rest.1)
  }

  lemma RetryTurn(waits: seq<nat>, attempt: nat, backoff: nat, listenMode: bool, listening: bool,
                  world: nat -> Camera, interrupted: nat -> bool)
    requires attempt <= 6
    ensures var next := if backoff < 16 then backoff * 2 else backoff;
            After(waits, Retry(attempt, backoff, listenMode, listening, world, interrupted))
            == if Accepted(world(attempt), listenMode && !listening).Some?
               then (Connected(Accepted(world(attempt), listenMode && !listening).value), waits)
               else if attempt == 6 then (Failed, waits)
               else if interrupted(attempt) then (Cancelled, waits)
               else After(waits + [backoff],
                          Retry(attempt + 1, next, listenMode, listening || (listenMode && world(attempt).listens),
                                world, interrupted))
  {
    hide Accepted;
    var next := if backoff < 16 then backoff * 2 else backoff;
    var later := listening || (listenMode && world(attempt).listens);
    var rest := Retry(attempt + 1, next, listenMode, later, world, interrupted);
    assert waits + ([backoff] + rest.1) == waits + [backoff] + rest.1 && waits + [] == waits;
  }

  lemma AfterNothing(rest: (Outcome, seq<nat>))
    ensures After([], rest) == rest
  {
    assert [] + rest.1 == rest.1;
  }

  lemma NothingCommanded()
    ensures forall id :: Commanded(None, id).None?
  {
  }

  lemma AckedChannel(c: Camera)
    requires Acked(c)
    ensures c.cmd.Some? && CommandAck(c.cmd.value).Some?
  {
  }

  // ---- The client ----

  class Client {
    const listenMode: bool
    const guid: seq<byte>
    var listening: bool
    var cmdConn: Channel?
    var evtConn: Channel?
    /** The sockets that are open, the most there ever were, and the listeners made. */
    ghost var open: set<Channel>
    ghost var peak: nat
    ghost var listeners: nat

    /** Both channels are installed or neither is, nothing else is open, never more than
        two sockets were, and there is at most one listener. */
    ghost predicate Valid()
      reads this
    {
      && (cmdConn == null <==> evtConn == null)
      && (cmdConn != null ==> cmdConn != evtConn)
      && open == Installed()
      && peak <= 2
      && listeners == (if listening then 1 else 0)
    }

    ghost function Installed(): set<Channel>
      reads this
    {
      (if cmdConn == null then {} else var c: Channel := cmdConn; {c})
      + (if evtConn == null then {} else var c: Channel := evtConn; {c})
    }

    constructor (mode: bool, id: seq<byte>)
      ensures Valid() && listenMode == mode && guid == id && cmdConn == null && !listening
    {
      listenMode, guid, listening := mode, id, false;
      cmdConn, evtConn := null, null;
      open, peak, listeners := {}, 0, 0;
    }

    method Open(stream: seq<byte>) returns (c: Channel)
      modifies this`open, this`peak
      ensures fresh(c) && c.incoming == stream && c.outgoing == [] && c.txID == 0
      ensures open == old(open) + {c}
      ensures peak == if |open| > old(peak) then |open| else old(peak)
    {
      c := new Channel(stream);
      open := open + {c};
      peak := if |open| > peak then |open| else peak;
    }

    method Close(c: Channel)
      modifies this`open
      ensures open == old(open) - {c}
    {
      open := open - {c};
    }

    method CloseConns()
      modifies this`cmdConn, this`evtConn, this`open
      ensures cmdConn == null && evtConn == null
      ensures open == old(open) - old(Installed())
    {
      if cmdConn != null {
        Close(cmdConn);
        cmdConn := null;
      }
      if evtConn != null {
        Close(evtConn);
        evtConn := null;
      }
    }

    method RecvInitCommandAck(c: Channel) returns (connNum: Option<uint32>)
      modifies c`incoming
      ensures match CommandAck(old(c.incoming))
              case None => connNum == None
              case Some((n, rest)) => connNum == Some(n) && c.incoming == rest
    {
      var r := c.RecvPacket();
      if r.Err? || r.value.kind == INIT_FAIL || r.value.kind != INIT_COMMAND_ACK || |r.value.payload| < 4 {
        return None;
      }
      return Some(GetU32(r.value.payload[0..4]));
    }

    method RecvInitEventAck(c: Channel) returns (ok: bool)
      modifies c`incoming
      ensures ok <==> EventAck(old(c.incoming))
    {
      var r := c.RecvPacket();
      return r.Ok? && r.value.kind != INIT_FAIL && r.value.kind == INIT_EVENT_ACK;
    }

    method SessionCommand(c: Channel, id: uint32, opcode: uint16, written: bool) returns (ok: bool)
      requires c.txID + 1 == id
      modifies c
      ensures var after := Commanded(Some(old(c.incoming)), id);
              && (ok <==> written && after.Some?)
              && (ok ==> c.incoming == after.value && c.txID == id
                         && c.outgoing == old(c.outgoing) + Spoken(old(c.incoming), id, opcode))
    {
      hide Exchange, Frame, Request, Pongs;
      var response := RunCommand(c, opcode, [1], written);
      assert c.txID == id;
      ok := response.Ok?;
    }

    /** OpenSession and the two mode commands, each of which must be answered with OK.
        The third and later writes of the attempt are theirs. */
    method RunSessionCommands(c: Channel, sends: nat) returns (ok: bool)
      requires c.txID == 0
      modifies c
      ensures ok <==> sends >= 5 && SessionOpened(old(c.incoming)).Some?
      ensures ok ==> c.incoming == SessionOpened(old(c.incoming)).value && c.txID == 3
      ensures ok ==> c.outgoing == old(c.outgoing) + AllSpoken(old(c.incoming))
    {
      hide Commanded, Spoken;
      NothingCommanded();
      ok := SessionCommand(c, 1, OC_OPEN_SESSION, sends >= 3);
      if !ok {
        return false;
      }
      ok := SessionCommand(c, 2, OC_SET_REMOTE_MODE, sends >= 4);
      if !ok {
        return false;
      }
      ok := SessionCommand(c, 3, OC_SET_EVENT_MODE, sends >= 5);
    }

    /** What a connection has been through that was accepted: all and only the packets of
        the handshake, the event request carrying the number of the acknowledgement. */
    ghost predicate Established(camera: Camera)
      reads this, cmdConn, evtConn
    {
      && Accepted(camera, false).Some? && cmdConn != null && evtConn != null
      && var connNum := CommandAck(camera.cmd.value).value.0;
      && cmdConn.incoming == Accepted(camera, false).value
      && cmdConn.txID == 3
      && cmdConn.outgoing == Greeting(guid, camera)
      && evtConn.outgoing == Frame(Packet(INIT_EVENT_REQUEST, PutU32(connNum)))
    }

    /** The two channels, acknowledged but not installed; null when an attempt fails, which
        closes what it has opened. */
    method OpenChannels(camera: Camera) returns (cmd: Channel?, evt: Channel?)
      requires open == {} && peak <= 2
      modifies this`open, this`peak
      ensures peak <= 2
      ensures if Acked(camera) then cmd != null && evt != null && fresh(cmd) && fresh(evt)
                 && cmd != evt && open == {cmd, evt}
              else cmd == null && evt == null && open == {}
      ensures cmd != null ==> cmd.incoming == CommandAck(camera.cmd.value).value.1 && cmd.txID == 0
      ensures cmd != null ==> cmd.outgoing == Frame(InitRequest(guid))
      ensures evt != null ==>
                 evt.outgoing == Frame(Packet(INIT_EVENT_REQUEST, PutU32(CommandAck(camera.cmd.value).value.0)))
    {
      hide CommandAck, EventAck, Frame, Utf16LE;
      cmd, evt := null, null;
      if camera.cmd.None? {
        return;
      }
      cmd := Open(camera.cmd.value);
      var name := EncodeUtf16LE("canon-proxy");
      var ok := cmd.SendPacket(Packet(INIT_COMMAND_REQUEST, guid + name + PutU32(0x0001_0000)), camera.sends >= 1);
      if !ok {
        Close(cmd);
        return null, null;
      }
      var connNum := RecvInitCommandAck(cmd);
      if connNum.None? {
        Close(cmd);
        return null, null;
      }
      if camera.evt.None? {
        Close(cmd);
        return null, null;
      }
      evt := Open(camera.evt.value);
      ok := evt.SendPacket(Packet(INIT_EVENT_REQUEST, PutU32(connNum.value)), camera.sends >= 2);
      if !ok {
        Close(cmd);
        Close(evt);
        return null, null;
      }
      var acked := RecvInitEventAck(evt);
      if !acked {
        Close(cmd);
        Close(evt);
        return null, null;
      }
    }

    /** The part of an attempt that dialling and accepting share. */
    method Handshake(camera: Camera) returns (ok: bool)
      requires Valid() && cmdConn == null
      modifies this`cmdConn, this`evtConn, this`open, this`peak
      ensures Valid() && (ok <==> cmdConn != null)
      ensures ok <==> Accepted(camera, false).Some?
      ensures ok ==> fresh(cmdConn) && fresh(evtConn) && Established(camera)
      ensures ok ==> Some(cmdConn.incoming) == Accepted(camera, false) && cmdConn.txID == 3
    {
      hide SessionOpened, CommandAck, EventAck, Frame, AllSpoken, Acked, InitRequest;
      var cmd, evt := OpenChannels(camera);
      if cmd == null {
        return false;
      }
      assert camera.cmd.Some? && CommandAck(camera.cmd.value).Some? by { AckedChannel(camera); }
      cmdConn, evtConn := cmd, evt;
      ok := RunSessionCommands(cmd, camera.sends);
      if !ok || !camera.settles {
        CloseConns();
        return false;
      }
    }

    /** connectClient and connectServer: the latter makes its listener first, once. */
    method Connect(camera: Camera) returns (ok: bool)
      requires Valid() && cmdConn == null
      modifies this
      ensures Valid() && (ok <==> cmdConn != null)
      ensures ok <==> Accepted(camera, listenMode && !old(listening)).Some?
      ensures ok ==> fresh(cmdConn) && fresh(evtConn) && Established(camera)
      ensures ok ==> Some(cmdConn.incoming) == Accepted(camera, listenMode && !old(listening)) && cmdConn.txID == 3
      ensures listening == (old(listening) || (listenMode && camera.listens))
    {
      hide SessionOpened, CommandAck, EventAck, Established;
      if listenMode && !listening {
        if !camera.listens {
          return false;
        }
        listening := true;
        listeners := listeners + 1;
      }
      ok := Handshake(camera);
    }

    /** `world` is what the outside does at each attempt; `interrupted` says after which
        failed attempts the context is cancelled during the wait. */
    method EnsureConnected(cancelled: bool, world: nat -> Camera, interrupted: nat -> bool)
      returns (r: Outcome, waits: seq<nat>)
      requires Valid()
      modifies this
      ensures Valid() && (r.Connected? <==> cmdConn != null)
      ensures r.Connected? ==> cmdConn.incoming == r.unread
      ensures old(cmdConn) != null ==> unchanged(this) && waits == [] && r == Connected(old(cmdConn.incoming))
      ensures old(cmdConn) == null ==>
                (r, waits) == if cancelled then (Cancelled, [])
                              else Retry(1, 1, listenMode, old(listening), world, interrupted)
      ensures cmdConn != old(cmdConn) ==> fresh(cmdConn) && fresh(evtConn) && cmdConn.txID == 3
      ensures cmdConn != old(cmdConn) ==> exists k :: 1 <= k <= 6 && Established(world(k))
    {
      hide Accepted, Retry, After, Established;
      waits := [];
      if cmdConn != null {
        return Connected(cmdConn.incoming), waits;
      }
      if cancelled {
        return Cancelled, waits;
      }
      ghost var all := Retry(1, 1, listenMode, listening, world, interrupted);
      var attempt, backoff := 1, 1;
      AfterNothing(all);
      while true
        invariant Valid() && cmdConn == null && 1 <= attempt <= 6
        invariant all == After(waits, Retry(attempt, backoff, listenMode, listening, world, interrupted))
        decreases 6 - attempt
      {
        RetryTurn(waits, attempt, backoff, listenMode, listening, world, interrupted);
        var ok := Connect(world(attempt));
        if ok {
          return Connected(cmdConn.incoming), waits;
        }
        if attempt == 6 {
          return Failed, waits;
        }
        if interrupted(attempt) {
          return Cancelled, waits;
        }
        waits := waits + [backoff];
        if backoff < 16 {
          backoff := backoff * 2;
        }
        attempt := attempt + 1;
      }
    }

    /** DownloadImage, on the connection there is or on a new one; a failed transfer leaves
        both channels closed. `written` is whether the request goes out, `via` the command
        channel that it is for. */
    method DownloadImage(url: string, cancelled: bool, world: nat -> Camera, interrupted: nat -> bool, written: bool)
      returns (data: Option<seq<byte>>, ghost via: Channel?)
      requires Valid()
      modifies this, Installed()
      ensures Valid()
      ensures var (unread, id) := if old(cmdConn) != null then (Connected(old(cmdConn.incoming)), old(cmdConn.txID))
                                  else if cancelled then (Cancelled, 0)
                                  else (Retry(1, 1, listenMode, old(listening), world, interrupted).0, 3);
              && Downloaded(url, unread, id, written, data)
              && (via != null <==> unread.Connected?)
              && (via != null ==>
                    Wrote(via.outgoing, if old(cmdConn) != null then Some(old(cmdConn.outgoing)) else None, world,
                          Said(url, unread, id, written)))
      ensures old(cmdConn) != null ==> via == old(cmdConn) && (cmdConn == old(cmdConn) || cmdConn == null)
      ensures cmdConn != null ==> cmdConn == via
    {
      hide Answered, Retry, ParseHandle, Asked, Said, Wrote, Established, Downloaded;
      var r, waits := EnsureConnected(cancelled, world, interrupted);
      if !r.Connected? {
        NotDownloaded(url, r, if cancelled then 0 else 3, written);
        return None, null;
      }
      via := cmdConn;
      ghost var before := if old(cmdConn) != null then Some(old(cmdConn.outgoing)) else None;
      ghost var id, greeted := via.txID, via.outgoing;
      if old(cmdConn) == null {
        var k :| 1 <= k <= 6 && Established(world(k));
        EstablishedWrote(world, k);
      } else {
        UnchangedWrote(world, greeted);
      }
      data := DownloadOver(url, written);
      WroteMore(greeted, before, world, via.outgoing, Said(url, r, id, written));
    }

    /** The rest of DownloadImage, once there is a connection. */
    method DownloadOver(url: string, written: bool) returns (data: Option<seq<byte>>)
      requires Valid() && cmdConn != null
      modifies this, Installed()
      ensures Valid() && (cmdConn == old(cmdConn) || cmdConn == null)
      ensures var r, id := Connected(old(cmdConn.incoming)), old(cmdConn.txID);
              && Downloaded(url, r, id, written, data)
              && old(cmdConn).outgoing == old(cmdConn.outgoing) + Said(url, r, id, written)
    {
      hide Answered, ParseHandle, Frame, Request, Pongs;
      var handle := ParseHandle(url);
      if handle.None? {
        assert cmdConn.outgoing + [] == cmdConn.outgoing;
        return None;
      }
      var fetched := FetchData(cmdConn, OC_GET_OBJECT, [handle.value], written);
      assert NextID(old(cmdConn.txID)) == cmdConn.txID;
      SaidIs(url, old(cmdConn.incoming), old(cmdConn.outgoing), old(cmdConn.txID), written);
      if fetched.Err? {
        CloseConns();
        return None;
      }
      return Some(fetched.value);
    }

    lemma NotDownloaded(url: string, r: Outcome, id: uint32, written: bool)
      requires !r.Connected? && cmdConn == null
      ensures Downloaded(url, r, id, written, None)
    {
    }

    lemma UnchangedWrote(world: nat -> Camera, outgoing: seq<byte>)
      ensures Wrote(outgoing, Some(outgoing), world, [])
    {
      assert outgoing + [] == outgoing;
    }

    /** What has been written to a channel: `said`, behind what was there before or, on a
        connection just made, behind the greeting of some attempt. */
    ghost predicate Wrote(outgoing: seq<byte>, before: Option<seq<byte>>, world: nat -> Camera, said: seq<byte>) {
      match before
      case Some(b) => outgoing == b + said
      case None =>
        exists k :: 1 <= k <= 6 && Accepted(world(k), false).Some? && outgoing == Greeting(guid, world(k)) + said
    }

    lemma EstablishedWrote(world: nat -> Camera, k: nat)
      requires 1 <= k <= 6 && Established(world(k))
      ensures cmdConn != null && Wrote(cmdConn.outgoing, None, world, [])
    {
      hide Greeting, Accepted;
      assert cmdConn.outgoing + [] == cmdConn.outgoing;
    }

    lemma WroteMore(outgoing: seq<byte>, before: Option<seq<byte>>, world: nat -> Camera, later: seq<byte>,
                    said: seq<byte>)
      requires Wrote(outgoing, before, world, []) && later == outgoing + said
      ensures Wrote(later, before, world, said)
    {
      hide Greeting, Accepted;
      match before {
        case Some(b) => assert b + [] + said == b + said;
        case None =>
          var k :| 1 <= k <= 6 && Accepted(world(k), false).Some? && outgoing == Greeting(guid, world(k)) + [];
          assert Greeting(guid, world(k)) + [] + said == Greeting(guid, world(k)) + said;
      }
    }

    /** What a download over a connection with these unread bytes and this last transaction
        ID returns, and what becomes of the connection. */
    ghost predicate Downloaded(url: string, r: Outcome, id: uint32, written: bool, data: Option<seq<byte>>)
      reads this, cmdConn
    {
      if !r.Connected? then data == None && cmdConn == null
      else if ParseHandle(url).None? then data == None && cmdConn != null && cmdConn.incoming == r.unread
      else
        var reply := Answered(Fetch, r.unread, NextID(id), written);
        match reply.result
        case Ok(d) => data == Some(d) && cmdConn != null && cmdConn.incoming == reply.rest && cmdConn.txID == NextID(id)
        case Err(_) => data == None && cmdConn == null
    }
  }

  // ---- What is downloaded ----

  /** The request that a download sends after transaction `id`. */
  function Asked(url: string, id: uint32): seq<byte> {
    match ParseHandle(url)
    case None => []
    case Some(h) => Frame(Request(OC_GET_OBJECT, NextID(id), false, [h]))
  }

  /** All that a download writes: its request, when that goes out, and the pongs. */
  function Said(url: string, r: Outcome, id: uint32, written: bool): seq<byte>
    requires r.Connected?
  {
    if ParseHandle(url).None? then []
    else (if written then Asked(url, id) else []) + Pongs(Answered(Fetch, r.unread, NextID(id), written).pongs)
  }

  lemma SaidIs(url: string, unread: seq<byte>, before: seq<byte>, id: uint32, written: bool)
    requires ParseHandle(url).Some?
    ensures before + Said(url, Connected(unread), id, written)
         == before
            + (if written then Frame(Request(OC_GET_OBJECT, NextID(id), false, [ParseHandle(url).value])) else [])
            + Pongs(Answered(Fetch, unread, NextID(id), written).pongs)
  {
    hide ParseHandle, Frame, Request, Pongs, Answered, NextID;
  }

  /** A camera that serves the objects by their handles: when it has been sent a request for
      an object, and nothing else, it answers under the request's ID with that object,
      split in any way and with any noise in between. */
  ghost predicate Serves(objects: uint32 -> seq<byte>, request: seq<byte>, unread: seq<byte>, rest: seq<byte>) {
    forall tx: uint32, h: uint32 :: Requests(request, tx, h) ==> Delivers(objects(h), tx, unread, rest)
  }

  /** The bytes are one operation request, GetObject, of the object `h` in transaction `tx`. */
  ghost predicate Requests(b: seq<byte>, tx: uint32, h: uint32) {
    && |b| == 22 && Spells32(b, 0, 22) && Spells32(b, 4, 6)
    && Spells32(b, 8, 1) && Spells16(b, 12, 0x1009) && Spells32(b, 14, tx) && Spells32(b, 18, h)
  }

  ghost predicate Delivers(content: seq<byte>, tx: uint32, unread: seq<byte>, rest: seq<byte>) {
    exists t, a: Answer ::
      && Answers(t, Fetch, tx, a)
      && a.DataThenResponse? && a.code == 0x2001 && Flatten(a.parts) + a.last == content
      && unread == FrameAll(t.data) + (FrameAll(t.response) + rest)
  }

  lemma AskedBytes(host: string, port: int, h: uint32, id: uint32)
    ensures Requests(Asked(HandleURL(host, port, h), id), NextID(id), h)
  {
    hide HandleURL, ParseHandle, Frame, Request, Spells16, Spells32;
    HandleRoundTrip(host, port, h);
    var p := Request(OC_GET_OBJECT, NextID(id), false, [h]);
    RequestBytes(OC_GET_OBJECT, NextID(id), false, [h]);
    RequestKind(OC_GET_OBJECT, NextID(id), false, [h]);
    FrameBytes(p);
    Shifted32(Frame(p), 8, p.payload, 0, 1);
    Shifted16(Frame(p), 8, p.payload, 4, OC_GET_OBJECT);
    Shifted32(Frame(p), 8, p.payload, 6, NextID(id));
    assert Spells32(p.payload, 10 + 4 * 0, [h][0]);
    Shifted32(Frame(p), 8, p.payload, 10, h);
  }

  lemma RequestKind(opcode: uint16, tx: uint32, hostSendsData: bool, params: seq<uint32>)
    ensures Request(opcode, tx, hostSendsData, params).kind == 6
  {
  }

  lemma Shifted32(b: seq<byte>, skip: nat, tail: seq<byte>, at: nat, n: uint32)
    requires skip <= |b| && b[skip..] == tail && Spells32(tail, at, n)
    ensures Spells32(b, skip + at, n)
  {
  }

  lemma Shifted16(b: seq<byte>, skip: nat, tail: seq<byte>, at: nat, n: uint16)
    requires skip <= |b| && b[skip..] == tail && Spells16(tail, at, n)
    ensures Spells16(b, skip + at, n)
  {
  }

  /** Downloading from such a camera by the URL of a handle gets exactly the object with
      that handle, and the connection stays in step. */
  lemma ServedByHandle(host: string, port: int, h: uint32, id: uint32, objects: uint32 -> seq<byte>, unread: seq<byte>,
                       rest: seq<byte>)
    requires Serves(objects, Asked(HandleURL(host, port, h), id), unread, rest)
    ensures ParseHandle(HandleURL(host, port, h)).Some?
    ensures var reply := Answered(Fetch, unread, NextID(id), true);
            reply.result == Ok(objects(h)) && reply.rest == rest
  {
    hide HandleURL, ParseHandle, Asked, Requests, Answers, FrameAll, Exchange;
    HandleRoundTrip(host, port, h);
    AskedBytes(host, port, h, id);
    var tx := NextID(id);
    assert Delivers(objects(h), tx, unread, rest);
    var t, a: Answer :|
      && Answers(t, Fetch, tx, a)
      && a.DataThenResponse? && a.code == 0x2001 && Flatten(a.parts) + a.last == objects(h)
      && unread == FrameAll(t.data) + (FrameAll(t.response) + rest);
    StaysInStep(t, Fetch, tx, a, rest);
  }

  // ---- Which attempts succeed ----

  /** The `k`-th attempt is made and goes through when the first is the `from`-th: no wait
        before it is interrupted, and a listener made by one attempt serves the later ones. */
  ghost predicate Connects(from: nat, k: nat, listenMode: bool, listening: bool, world: nat -> Camera,
                           interrupted: nat -> bool) {
    var ready := listening || exists j :: from <= j < k && world(j).listens;
    && Accepted(world(k), listenMode && !ready).Some?
    && forall j :: from <= j < k ==> !interrupted(j)
  }

  lemma ConnectsFirst(from: nat, listenMode: bool, listening: bool, world: nat -> Camera, interrupted: nat -> bool)
    ensures Connects(from, from, listenMode, listening, world, interrupted)
       <==> Accepted(world(from), listenMode && !listening).Some?
  {
    hide Accepted;
  }

  lemma ConnectsLater(from: nat, k: nat, listenMode: bool, listening: bool, world: nat -> Camera,
                      interrupted: nat -> bool)
    requires from < k
    ensures Connects(from, k, listenMode, listening, world, interrupted) <==>
            !interrupted(from)
            && Connects(from + 1, k, listenMode, listening || (listenMode && world(from).listens), world, interrupted)
  {
    hide Accepted;
    ReadyLater(from, k, world);
  }

  /** Connecting succeeds exactly when one of the six attempts is made and goes through. */
  lemma {:induction false} ConnectsIff(from: nat, backoff: nat, listenMode: bool, listening: bool,
                                       world: nat -> Camera, interrupted: nat -> bool)
    requires from <= 6
    ensures Retry(from, backoff, listenMode, listening, world, interrupted).0.Connected? <==>
            exists k :: from <= k <= 6 && Connects(from, k, listenMode, listening, world, interrupted)
    ensures Retry(from, backoff, listenMode, listening, world, interrupted).0.Failed? <==>
            && (forall j :: from <= j < 6 ==> !interrupted(j))
            && (forall k :: from <= k <= 6 ==> !Connects(from, k, listenMode, listening, world, interrupted))
    decreases 6 - from
  {
    hide Accepted, Connects;
    var later := listening || (listenMode && world(from).listens);
    var next := if backoff < 16 then backoff * 2 else backoff;
    ConnectsFirst(from, listenMode, listening, world, interrupted);
    forall k | from < k
      ensures Connects(from, k, listenMode, listening, world, interrupted) <==>
              !interrupted(from) && Connects(from + 1, k, listenMode, later, world, interrupted)
    {
      ConnectsLater(from, k, listenMode, listening, world, interrupted);
    }
    if Accepted(world(from), listenMode && !listening).Some? {
      assert Connects(from, from, listenMode, listening, world, interrupted);
    } else if from < 6 && !interrupted(from) {
      var second := from + 1;
      ConnectsIff(second, next, listenMode, later, world, interrupted);
      if k :| second <= k <= 6 && Connects(second, k, listenMode, later, world, interrupted) {
        assert Connects(from, k, listenMode, listening, world, interrupted);
      }
    } else {
      assert !Retry(from, backoff, listenMode, listening, world, interrupted).0.Connected?;
      assert forall k :: from <= k <= 6 ==> !Connects(from, k, listenMode, listening, world, interrupted);
    }
  }

  lemma ReadyLater(from: nat, k: nat, world: nat -> Camera)
    requires from < k
    ensures (exists j :: from <= j < k && world(j).listens)
       <==> world(from).listens || exists j :: from + 1 <= j < k && world(j).listens
  {
  }

  function Doubling(n: nat, backoff: nat): seq<nat> {
    if n == 0 then [] else [backoff] + Doubling(n - 1, if backoff < 16 then backoff * 2 else backoff)
  }

  lemma {:induction false} WaitsFrom(from: nat, backoff: nat, listenMode: bool, listening: bool,
                                     world: nat -> Camera, interrupted: nat -> bool)
    requires from <= 6
    ensures var (r, waits) := Retry(from, backoff, listenMode, listening, world, interrupted);
            waits <= Doubling(6 - from, backoff) && (r == Failed ==> waits == Doubling(6 - from, backoff))
    decreases 6 - from
  {
    hide Accepted;
    if from < 6 {
      WaitsFrom(from + 1, if backoff < 16 then backoff * 2 else backoff, listenMode,
                listening || (listenMode && world(from).listens), world, interrupted);
    }
  }

  /** The waits between attempts are 1, 2, 4, 8 and 16 seconds, all five before giving up. */
  lemma WaitsDouble(listenMode: bool, listening: bool, world: nat -> Camera, interrupted: nat -> bool)
    ensures var (r, waits) := Retry(1, 1, listenMode, listening, world, interrupted);
            waits <= [1, 2, 4, 8, 16] && (r == Failed ==> waits == [1, 2, 4, 8, 16])
  {
    hide Retry;
    WaitsFrom(1, 1, listenMode, listening, world, interrupted);
    assert Doubling(2, 8) == [8, 16];
    assert Doubling(5, 1) == [1, 2, 4, 8, 16];
  }

  /** A camera that acknowledges both channels and then sends the answers `ts`, and `rest`. */
  function Welcoming(connNum: uint32, name: seq<byte>, ts: seq<Transcript>, rest: seq<byte>, ack: seq<byte>,
                     events: seq<byte>, sends: nat): Camera {
    Camera(true, Some(Frame(Packet(INIT_COMMAND_ACK, PutU32(connNum) + name)) + (FrameTranscripts(ts) + rest)),
           Some(Frame(Packet(INIT_EVENT_ACK, ack)) + events), sends, true)
  }

  /** `ts` answers the three commands with OK, with any noise in between. */
  ghost predicate Agrees(connNum: uint32, name: seq<byte>, ts: seq<Transcript>, params: seq<seq<uint32>>,
                         ack: seq<byte>) {
    && |ts| == 3 == |params|
    && (forall i :: 0 <= i < 3 ==> Answers(ts[i], Command, i + 1, ResponseOnly(RC_OK, params[i])))
    && Fits(Packet(INIT_COMMAND_ACK, PutU32(connNum) + name)) && Fits(Packet(INIT_EVENT_ACK, ack))
  }

  /** One session command and the pongs for the pings that come before its answer. */
  function Exchanged(opcode: uint16, id: uint32, t: Transcript): seq<byte> {
    Frame(Request(opcode, id, false, [1])) + Pongs(Pings(t.data) + Pings(t.response))
  }

  /** A camera that acknowledges both channels and answers the three commands with OK,
      with any noise in between, is accepted, and what it sends next is still unread. It
      has been asked to open the session, for remote mode and for event mode, in that
      order and under the IDs 1, 2 and 3. */
  lemma WelcomeIsAccepted(connNum: uint32, name: seq<byte>, ts: seq<Transcript>, params: seq<seq<uint32>>,
                          rest: seq<byte>, ack: seq<byte>, events: seq<byte>, sends: nat, needsListener: bool,
                          guid: seq<byte>)
    requires Agrees(connNum, name, ts, params, ack) && sends >= 5
    ensures var c := Welcoming(connNum, name, ts, rest, ack, events, sends);
            && CommandAck(c.cmd.value).Some? && CommandAck(c.cmd.value).value.0 == connNum
            && Accepted(c, needsListener) == Accepted(c, false) == Some(rest)
            && Greeting(guid, c) == Frame(Packet(1, guid + Utf16LE("canon-proxy") + [0, 0, 1, 0]))
                 + (Exchanged(0x1002, 1, ts[0]) + Exchanged(0x9114, 2, ts[1]) + Exchanged(0x9115, 3, ts[2]))
  {
    hide Frame, Receive, FrameAll, Exchange, Answers, GetU32, Request, Pongs, Pings, PutU32, Commanded, Fits;
    var c := Welcoming(connNum, name, ts, rest, ack, events, sends);
    AckedWelcome(connNum, name, ts, params, rest, ack, events, sends);
    var rest2 := FrameTranscripts(ts[2..]) + rest;
    var rest1 := FrameTranscripts(ts[1..]) + rest;
    NextTranscript(ts, rest);
    NextTranscript(ts[1..], rest);
    NextTranscript(ts[2..], rest);
    assert ts[1..][1..] == ts[2..] && ts[2..][1..] == [];
    assert FrameTranscripts(ts[2..][1..]) + rest == rest;
    CommandAnswered(ts[0], 1, OC_OPEN_SESSION, params[0], rest1);
    CommandAnswered(ts[1], 2, OC_SET_REMOTE_MODE, params[1], rest2);
    CommandAnswered(ts[2], 3, OC_SET_EVENT_MODE, params[2], rest);
    VersionBytes();
  }

  lemma VersionBytes()
    ensures PutU32(0x0001_0000) == [0, 0, 1, 0]
  {
  }

  lemma AckedWelcome(connNum: uint32, name: seq<byte>, ts: seq<Transcript>, params: seq<seq<uint32>>, rest: seq<byte>,
                     ack: seq<byte>, events: seq<byte>, sends: nat)
    requires Agrees(connNum, name, ts, params, ack) && sends >= 5
    ensures var c := Welcoming(connNum, name, ts, rest, ack, events, sends);
            Acked(c) && CommandAck(c.cmd.value).value == (connNum, FrameTranscripts(ts) + rest)
  {
    hide Frame, Receive, FrameTranscripts, Answers, GetU32, Fits;
    var hello := Packet(INIT_COMMAND_ACK, PutU32(connNum) + name);
    FrameRoundTrip(hello, FrameTranscripts(ts) + rest);
    FrameRoundTrip(Packet(INIT_EVENT_ACK, ack), events);
    assert hello.payload[0..4] == PutU32(connNum);
  }

  /** Which attempts go through, step by step. */
  lemma AcceptedIff(c: Camera, needsListener: bool)
    ensures Accepted(c, needsListener).Some? <==>
            && (needsListener ==> c.listens) && c.sends >= 5 && c.settles
            && c.cmd.Some? && c.evt.Some?
            && Receive(c.evt.value).Got? && Receive(c.evt.value).packet.kind == 4
            && Receive(c.cmd.value).Got?
            && var (hello, s) := (Receive(c.cmd.value).packet, Receive(c.cmd.value).rest);
               && hello.kind == 2 && |hello.payload| >= 4
               && Exchange(Command, s, 1).result.Ok?
               && var t := Exchange(Command, s, 1).rest;
                  && Exchange(Command, t, 2).result.Ok?
                  && Exchange(Command, Exchange(Command, t, 2).rest, 3).result.Ok?
  {
    hide Receive, Exchange;
  }

  lemma NextTranscript(ts: seq<Transcript>, rest: seq<byte>)
    requires ts != []
    ensures FrameTranscripts(ts) + rest
         == FrameAll(ts[0].data) + (FrameAll(ts[0].response) + (FrameTranscripts(ts[1..]) + rest))
  {
    hide FrameAll;
  }

  lemma CommandAnswered(t: Transcript, id: uint32, opcode: uint16, params: seq<uint32>, rest: seq<byte>)
    requires Answers(t, Command, id, ResponseOnly(RC_OK, params))
    ensures var s := FrameAll(t.data) + (FrameAll(t.response) + rest);
            Commanded(Some(s), id) == Some(rest) && Spoken(s, id, opcode) == Exchanged(opcode, id, t)
  {
    hide Answers, FrameAll, Exchange, Frame, Request, Pongs, Pings;
    StaysInStep(t, Command, id, ResponseOnly(RC_OK, params), rest);
  }
}
