/** The transaction wrappers of internal/canon/objects.go and session.go over one
    command channel, and a camera that answers each request in order. */
module Transactions {
  import opened Bytes
  import opened Ptp
  import opened Transport

  /** Transactions that read a data phase before the response, and those that do not. */
  datatype Kind = Fetch | Command

  /** What one transaction returns, leaves unread and pongs. */
  function Exchange(kind: Kind, s: seq<byte>, tx: uint32): Reply<seq<byte>> {
    if kind == Command then
      var r := Drive(s, ResponseRule(tx), []);
      Reply(if r.result.Ok? then Ok([]) else Err(r.result.error), r.rest, r.pongs)
    else
      var d := Drive(s, DataRule(tx), []);
      if d.result.Err? then d
      else
        var r := Drive(d.rest, ResponseRule(tx), []);
        Reply(if r.result.Ok? then d.result else Err(r.result.error), r.rest, d.pongs + r.pongs)
  }

  function NextID(id: uint32): uint32 {
    (id + 1) as int % 0x1_0000_0000
  }

  lemma {:induction false} PongsAdd(j: nat, k: nat)
    ensures Pongs(j + k) == Pongs(j) + Pongs(k)
  {
    if k > 0 {
      PongsAdd(j, k - 1);
    }
  }

  /** ...when its request goes out, and otherwise. */
  function Answered(kind: Kind, s: seq<byte>, tx: uint32, written: bool): Reply<seq<byte>> {
    if written then Exchange(kind, s, tx) else Reply(Err(WriteFailed), s, 0)
  }

  /** One transaction: the next ID, one request, and, if the request is written, the answer
      to that ID. */
  twostate predicate Transacted(c: Channel, kind: Kind, opcode: uint16, params: seq<uint32>, written: bool)
    reads c
  {
    var reply := Answered(kind, old(c.incoming), c.txID, written);
    && c.txID == NextID(old(c.txID))
    && c.incoming == reply.rest
    && c.outgoing == old(c.outgoing) + (if written then Frame(Request(opcode, c.txID, false, params)) else [])
         + Pongs(reply.pongs)
  }

  /** getObjectData, and the part the other getters share with it. */
  method FetchData(c: Channel, opcode: uint16, params: seq<uint32>, written: bool)
    returns (result: Result<seq<byte>, Error>)
    modifies c
    ensures Transacted(c, Fetch, opcode, params, written)
    ensures result == Answered(Fetch, old(c.incoming), c.txID, written).result
    ensures !written ==> result == Err(WriteFailed) && c.incoming == old(c.incoming)
  {
    hide Drive, DataRule, ResponseRule, Request, Frame;
    var tx := c.NextTxID();
    var ok := c.SendCmdRequest(opcode, tx, false, params, written);
    if !ok {
      return Err(WriteFailed);
    }
    ghost var sent := c.outgoing;
    var data := c.RecvData(tx);
    if data.Err? {
      return Err(data.error);
    }
    ghost var pongs := Drive(old(c.incoming), DataRule(tx), []).pongs;
    ghost var more := Drive(c.incoming, ResponseRule(tx), []).pongs;
    var response := c.RecvResponse(tx);
    PongsAdd(pongs, more);
    assert c.outgoing == sent + (Pongs(pongs) + Pongs(more));
    if response.Err? {
      return Err(response.error);
    }
    return Ok(data.value);
  }

  /** DeleteObject, OpenSession and the mode commands: no data phase. */
  method RunCommand(c: Channel, opcode: uint16, params: seq<uint32>, written: bool)
    returns (result: Result<seq<byte>, Error>)
    modifies c
    ensures Transacted(c, Command, opcode, params, written)
    ensures result == Answered(Command, old(c.incoming), c.txID, written).result
    ensures !written ==> result == Err(WriteFailed) && c.incoming == old(c.incoming)
  {
    hide Drive, DataRule, ResponseRule, Request, Frame;
    var tx := c.NextTxID();
    var ok := c.SendCmdRequest(opcode, tx, false, params, written);
    if !ok {
      return Err(WriteFailed);
    }
    var response := c.RecvResponse(tx);
    if response.Err? {
      return Err(response.error);
    }
    return Ok([]);
  }

  method GetStorageIDs(c: Channel, written: bool) returns (ids: Result<seq<uint32>, Error>)
    modifies c
    ensures Transacted(c, Fetch, OC_GET_STORAGE_IDS, [], written)
    ensures ids == match Answered(Fetch, old(c.incoming), c.txID, written).result
                   case Ok(data) => Ok(ParsedArray(data))
                   case Err(e) => Err(e)
  {
    var data := FetchData(c, OC_GET_STORAGE_IDS, [], written);
    if data.Err? {
      return Err(data.error);
    }
    var parsed := ParseUint32Array(data.value);
    return Ok(parsed);
  }

  method GetObjectHandles(c: Channel, storageID: uint32, format: uint32, parent: uint32, written: bool)
    returns (handles: Result<seq<uint32>, Error>)
    modifies c
    ensures Transacted(c, Fetch, OC_GET_OBJECT_HANDLES, [storageID, format, parent], written)
    ensures handles == match Answered(Fetch, old(c.incoming), c.txID, written).result
                   case Ok(data) => Ok(ParsedArray(data))
                   case Err(e) => Err(e)
  {
    var data := FetchData(c, OC_GET_OBJECT_HANDLES, [storageID, format, parent], written);
    if data.Err? {
      return Err(data.error);
    }
    var parsed := ParseUint32Array(data.value);
    return Ok(parsed);
  }

  method GetObjectInfo(c: Channel, handle: uint32, written: bool) returns (info: Result<ObjectInfo, Error>)
    modifies c
    ensures Transacted(c, Fetch, OC_GET_OBJECT_INFO, [handle], written)
    ensures info == match Answered(Fetch, old(c.incoming), c.txID, written).result
                   case Ok(data) => Ok(ParseObjectInfo(data))
                   case Err(e) => Err(e)
  {
    var data := FetchData(c, OC_GET_OBJECT_INFO, [handle], written);
    if data.Err? {
      return Err(data.error);
    }
    return Ok(ParseObjectInfo(data.value));
  }

  // ---- A camera that answers in order ----

  datatype Answer =
    | DataThenResponse(total: uint64, parts: seq<seq<byte>>, last: seq<byte>, code: uint16, params: seq<uint32>)
    | ResponseOnly(code: uint16, params: seq<uint32>)

  function Response(tx: uint32, code: uint16, params: seq<uint32>): Packet {
    Packet(CMD_RESPONSE, PutU16(code) + PutU32(tx) + PutWords(params))
  }

  /** Packets recvResponse passes over: everything but a response that is malformed or
      carries this transaction's ID. */
  predicate ResponseNoise(p: Packet, tx: uint32) {
    p.kind != CMD_RESPONSE || (|p.payload| >= 6 && GetU32(p.payload[2..6]) != tx)
  }

  function ResponseNoiseFor(tx: uint32): Packet -> bool {
    p => ResponseNoise(p, tx)
  }

  /** The packets of one answer: those up to the end of the data phase, then the rest. */
  datatype Transcript = Transcript(data: seq<Packet>, response: seq<Packet>)

  /** `t` is answer `a` to transaction `tx` with noise mixed in. Nothing that looks like
      a response may come before the data has ended. */
  ghost predicate Answers(t: Transcript, kind: Kind, tx: uint32, a: Answer) {
    match a
    case DataThenResponse(total, parts, last, code, params) =>
      && kind == Fetch
      && total <= MAX_ALLOC
      && MixedIn(t.data, DataNoiseFor(tx), DataPhase(tx, total, parts, last))
      && MixedIn(t.response, ResponseNoiseFor(tx), [Response(tx, code, params)])
    case ResponseOnly(code, params) =>
      && t.data == []
      && MixedIn(t.response,
                 if kind == Fetch then DataNoiseFor(tx) else ResponseNoiseFor(tx), [Response(tx, code, params)])
  }

  /** What the wrapper must return for an answer. */
  function Expected(kind: Kind, a: Answer): Result<seq<byte>, Error> {
    if a.ResponseOnly? && kind == Fetch then Err(UnexpectedResponse)
    else if a.code != RC_OK then Err(Refused(a.code))
    else Ok(if a.ResponseOnly? then [] else Flatten(a.parts) + a.last)
  }

  lemma ResponseSteps(tx: uint32, code: uint16, params: seq<uint32>)
    ensures var result := if code == RC_OK then Ok(params) else Err(Refused(code));
            Over([Response(tx, code, params)], ResponseRule(tx), []) == Done(result, [])
    ensures Over([Response(tx, code, params)], DataRule(tx), []) == Done(Err(UnexpectedResponse), [])
  {
    hide GetU16, GetU32;
    var payload := Response(tx, code, params).payload;
    assert payload[0..2] == PutU16(code) && payload[2..6] == PutU32(tx) && payload[6..] == PutWords(params);
    GetPutWords(params);
  }

  /** A transaction returns what its answer calls for, consumes exactly that answer,
      and so leaves the next transaction in step, whether it succeeded or not. */
  lemma StaysInStep(t: Transcript, kind: Kind, tx: uint32, a: Answer, rest: seq<byte>)
    requires Answers(t, kind, tx, a)
    ensures Exchange(kind, FrameAll(t.data) + (FrameAll(t.response) + rest), tx)
         == Reply(Expected(kind, a), rest, Pings(t.data) + Pings(t.response))
  {
    hide Drive, Over, Sift, Response, DataNoise, ResponseNoise;
    var behind := FrameAll(t.response) + rest;
    var core := [Response(tx, a.code, a.params)];
    var outcome := if a.code == RC_OK then Ok(a.params) else Err(Refused(a.code));
    ResponseSteps(tx, a.code, a.params);
    ResponseNoiseIgnored(tx);
    DataNoiseIgnored(tx);
    match a
    case DataThenResponse(total, parts, last, code, params) =>
      PayloadReceived(t.data, behind, tx, total, parts, last);
      ThroughNoise(t.response, rest, ResponseRule(tx), ResponseNoiseFor(tx), core, outcome);
    case ResponseOnly(code, params) =>
      assert FrameAll(t.data) + behind == behind;
      if kind == Fetch {
        ThroughNoise(t.response, rest, DataRule(tx), DataNoiseFor(tx), core, Err(UnexpectedResponse));
      } else {
        ThroughNoise(t.response, rest, ResponseRule(tx), ResponseNoiseFor(tx), core, outcome);
      }
  }

  lemma ResponseNoiseIgnored(tx: uint32)
    ensures forall p, b :: ResponseNoiseFor(tx)(p) ==> ResponseRule(tx)(p, b) == Continue(b)
  {
  }

  lemma DataNoiseIgnored(tx: uint32)
    ensures forall p, b :: DataNoiseFor(tx)(p) ==> DataRule(tx)(p, b) == Continue(b)
  {
  }

  // ---- Runs ----

  /** The ID of the transaction that comes `i` after ID `id`'s successor. */
  function NthID(id: uint32, i: nat): uint32 {
    (id as int + 1 + i) % 0x1_0000_0000
  }

  /** On a fresh connection the IDs are 1, 2, 3, ...; two transactions share an ID
      exactly when a multiple of 2^32 lies between them. */
  lemma IDsAreFresh(id: uint32, i: nat, j: nat)
    requires i <= j
    ensures i < 0xFFFF_FFFF ==> NthID(0, i) == i + 1
    ensures NthID(id, i) == NthID(id, j) <==> (j - i) % 0x1_0000_0000 == 0
  {
  }

  /** The results of running the transactions one after another, and what stays unread. */
  function RunAll(kinds: seq<Kind>, s: seq<byte>, id: uint32): (seq<Result<seq<byte>, Error>>, seq<byte>) {
    if kinds == [] then ([], s)
    else
      var reply := Exchange(kinds[0], s, NextID(id));
      var (results, rest) := RunAll(kinds[1..], reply.rest, NextID(id));
      ([reply.result] + results, rest)
  }

  function FrameTranscripts(ts: seq<Transcript>): seq<byte> {
    if ts == [] then [] else FrameAll(ts[0].data) + (FrameAll(ts[0].response) + FrameTranscripts(ts[1..]))
  }

  /** Every transaction of a run gets the answer meant for it, failures included, and
      the run consumes exactly the answers. */
  lemma {:induction false} RunInStep(kinds: seq<Kind>, ts: seq<Transcript>, answers: seq<Answer>, id: uint32,
                                     rest: seq<byte>)
    requires |kinds| == |ts| == |answers|
    requires forall i :: 0 <= i < |ts| ==> Answers(ts[i], kinds[i], NthID(id, i), answers[i])
    ensures var (results, left) := RunAll(kinds, FrameTranscripts(ts) + rest, id);
            && left == rest
            && |results| == |answers|
            && forall i :: 0 <= i < |answers| ==> results[i] == Expected(kinds[i], answers[i])
  {
    hide Exchange, Answers, Expected, FrameAll;
    if ts == [] {
      assert FrameTranscripts(ts) + rest == rest;
    } else {
      var behind := FrameTranscripts(ts[1..]) + rest;
      assert FrameTranscripts(ts) + rest == FrameAll(ts[0].data) + (FrameAll(ts[0].response) + behind);
      assert NthID(id, 0) == NextID(id);
      StaysInStep(ts[0], kinds[0], NextID(id), answers[0], behind);
      forall i | 0 <= i < |ts[1..]|
        ensures Answers(ts[1..][i], kinds[1..][i], NthID(NextID(id), i), answers[1..][i])
      {
        assert NthID(NextID(id), i) == NthID(id, i + 1);
      }
      RunInStep(kinds[1..], ts[1..], answers[1..], NextID(id), rest);
    }
  }
}
