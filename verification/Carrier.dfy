// src/carrier.rs in its own form: the registry, the death slot and the counters of one tunnel as mutable
// objects. Each method, run without interruption, does exactly what the corresponding steps of the endpoint
// machine do; the machine adds what may happen between those steps.
module Carrier {
  import opened Bytes
  import opened Mux
  import opened Endpoint

  /** The inbound channel of one stream: what waits in it, and whether its receiver still exists. */
  class Inbound {
    var chunks: seq<seq<Byte>>
    var rxOpen: bool

    constructor ()
      ensures chunks == [] && rxOpen
    {
      chunks, rxOpen := [], true;
    }
  }

  /** The reader's next step while nobody else runs: a full channel stays full, so the timeout strikes. */
  function ReaderMove(e: Endpoint): ReaderStep {
    if HandEnabled(e) then Handle else Timeout
  }

  predicate Knows(e: Endpoint) {
    e.reg <= e.streams.Keys && (e.hand.Delivering? ==> e.hand.id in e.streams)
  }

  /** The endpoint once the reader has run `deliver` to its end. */
  function Delivered(e: Endpoint): (e': Endpoint)
    requires Knows(e)
    ensures Knows(e') && !e'.hand.Looking? && !e'.hand.Delivering? && !e'.hand.Stalled?
    decreases HandRank(e.hand)
  {
    if e.hand.Looking? || e.hand.Delivering? || e.hand.Stalled? then Delivered(DoReader(e, ReaderMove(e))) else e
  }

  /** The endpoint once the reader has dispatched the frame in hand, as far as it gets without waiting: a reply
      stays in hand while the frame channel is full. */
  function Dispatched(e: Endpoint): (e': Endpoint)
    requires Knows(e)
    ensures e'.hand == Idle || ReplyInHand(e').Some?
  {
    var d := Delivered(e);
    if HandEnabled(d) then DoReader(d, Handle) else d
  }

  /** The reply the reader is waiting to enqueue. */
  function ReplyInHand(e: Endpoint): Option<Frame> {
    match e.hand
    case Echoing(i) => Some(Close(i))
    case Ponging(nonce) => Some(Pong(nonce))
    case _ => None
  }

  lemma {:induction false} DeliveredKeepsWire(e: Endpoint)
    requires Knows(e)
    ensures var d := Delivered(e);
            d.enq == e.enq && d.taken == e.taken && d.death == e.death && d.allocs == e.allocs && d.pongs == e.pongs
    ensures e.hand.Looking? || e.hand.Delivering? || e.hand.Stalled? ==>
              Delivered(e).hand == Idle || Delivered(e).hand == Echoing(e.hand.id)
    decreases HandRank(e.hand)
  {
    if e.hand.Looking? || e.hand.Delivering? || e.hand.Stalled? {
      DeliveredKeepsWire(DoReader(e, ReaderMove(e)));
    }
  }

  /** After `deliver` at most the echo is left to do, and it waits exactly while there is no room for it. */
  lemma EchoOrNothing(e: Endpoint)
    requires Knows(e) && e.hand.Looking?
    ensures var d := Delivered(e);
            Dispatched(e)
            == if d.hand == Idle || !Ready(e) then d else d.(hand := Idle, enq := Sent(e, Close(e.hand.id)))
  {
    DeliveredKeepsWire(e);
  }

  class StreamRegistry {
    var streams: map<Id, Inbound>

    constructor ()
      ensures streams == map[]
    {
      streams := map[];
    }

    /** The registry and the channels in it are those of the machine. */
    ghost predicate Models(reg: set<Id>, table: map<Id, Stream>)
      reads this, streams.Values
    {
      && streams.Keys == reg && reg <= table.Keys
      && (forall i, j :: i in streams && j in streams && i != j ==> streams[i] != streams[j])
      && (forall i :: i in streams ==> streams[i].chunks == table[i].chan && streams[i].rxOpen == table[i].rxOpen)
    }

    /** Returns the sender it displaced, if any. */
    method Register(id: Id, tx: Inbound) returns (previous: Option<Inbound>)
      modifies this
      ensures streams == old(streams)[id := tx]
      ensures previous == if id in old(streams) then Some(old(streams)[id]) else None
    {
      previous := if id in streams then Some(streams[id]) else None;
      streams := streams[id := tx];
    }

    method Remove(id: Id) returns (removed: Option<Inbound>)
      modifies this
      ensures streams == old(streams) - {id}
      ensures removed == if id in old(streams) then Some(old(streams)[id]) else None
    {
      removed := if id in streams then Some(streams[id]) else None;
      streams := streams - {id};
    }

    method CloseAll()
      modifies this
      ensures streams == map[]
    {
      streams := map[];
    }

    /** Run alone, `deliver` takes the machine from the lookup to its verdict: true and the chunk appended, or
        false and an echo due; the entry is gone exactly when the channel was open and full. */
    method Deliver(id: Id, payload: seq<Byte>, ghost e: Endpoint) returns (ok: bool)
      requires Models(e.reg, e.streams) && e.hand == Looking(id, payload)
      modifies this, streams.Values
      ensures Models(Delivered(e).reg, Delivered(e).streams) && Delivered(e).hand == if ok then Idle else Echoing(id)
      ensures ok <==> id in e.reg && e.streams[id].rxOpen && |e.streams[id].chan| < 64
      ensures ok ==> streams == old(streams) && streams[id].chunks == old(streams[id].chunks) + [payload]
      ensures !ok ==> streams.Keys == old(streams.Keys) - if id in e.reg && e.streams[id].rxOpen then {id} else {}
    {
      ghost var e1 := DoReader(e, Handle);
      if id !in streams {
        assert Delivered(e) == e1;
        return false;
      }
      var tx := streams[id];
      ghost var e2 := DoReader(e1, ReaderMove(e1));
      if !tx.rxOpen {
        assert Delivered(e) == Delivered(e1) == e2;
        return false;
      }
      if |tx.chunks| >= INBOUND_CAPACITY {
        ghost var e3 := DoReader(e2, Handle);
        assert Delivered(e) == Delivered(e1) == Delivered(e2) == e3;
        var gone := Remove(id);
        return false;
      }
      assert Delivered(e) == Delivered(e1) == e2;
      tx.chunks := tx.chunks + [payload];
      return true;
    }
  }

  /** What became of a send. */
  datatype SendResult = Queued | Down | MustWait

  /** The endpoint after the three pieces of `kill_with`. */
  function KillDone(e: Endpoint, k: KillerId): Endpoint
    requires k in e.death.killers && e.death.killers[k].pc == AtCause
  {
    DoKill(DoKill(DoKill(e, Advance(k)), Advance(k)), Advance(k))
  }

  /** One live tunnel: the frame channel, the registry, the counters and the death state. */
  class LiveTunnel {
    const registry: StreamRegistry
    var frames: seq<Frame>           // every frame the channel accepted
    var taken: nat                   // how many of them the writer has received
    var writerGone: bool             // the receiver was dropped: sends fail
    var nextId: U32
    var pongs: nat
    var dead: bool
    var cause: Option<DeathCause>

    constructor (role: Role)
      ensures Models(Init(role)) && fresh(registry)
    {
      registry := new StreamRegistry();
      frames, taken, writerGone, nextId, pongs, dead, cause := [], 0, false, 1, 0, false, None;
    }

    ghost predicate Models(e: Endpoint)
      reads this, registry, registry.streams.Values
    {
      ModelsBesidesWriter(e) && writerGone == WriterGone(e)
    }

    ghost predicate ModelsBesidesWriter(e: Endpoint)
      reads this, registry, registry.streams.Values
    {
      && registry.Models(e.reg, e.streams)
      && frames == e.enq && taken == e.taken <= |frames|
      && nextId == AllocatedId(e.allocs) && pongs == e.pongs
      && dead == e.death.dead && cause == e.death.cause
    }

    /** `fetch_add(1)`, wrapping at 2^32. */
    method AllocId(ghost e: Endpoint) returns (id: Id)
      requires Models(e) && TaskEnabled(e, Alloc)
      modifies this`nextId
      ensures Models(DoTask(e, Alloc)) && id == AllocatedId(e.allocs)
    {
      id := nextId;
      nextId := (nextId + 1) % U32_SIZE;
    }

    /** The writer receives the next frame. */
    method RecvFrame(ghost e: Endpoint) returns (f: Option<Frame>)
      requires Models(e) && (taken < |frames| ==> WireEnabled(e, Take))
      modifies this`taken
      ensures f.Some? <==> old(taken) < |frames|
      ensures f.Some? ==> f.value == frames[old(taken)] && Models(DoWire(e, Take))
      ensures f.None? ==> Models(e)
    {
      if taken < |frames| {
        f := Some(frames[taken]);
        taken := taken + 1;
      } else {
        f := None;
      }
    }

    /** A send to the bounded channel: queued if there is room, lost on a closed channel with the caller told
        so, and otherwise the sender waits and nothing has happened yet. */
    method SendFrame(f: Frame) returns (r: SendResult)
      requires taken <= |frames|
      modifies this`frames
      ensures r == if writerGone then Down
                   else if old(|frames|) - taken < 256 then Queued
                   else MustWait
      ensures frames == if r == Queued then old(frames) + [f] else old(frames)
    {
      if writerGone {
        return Down;
      }
      if |frames| - taken >= FRAME_CHANNEL_CAPACITY {
        return MustWait;
      }
      frames := frames + [f];
      r := Queued;
    }

    method OnOpen(stream: Id, ghost e: Endpoint)
      requires Models(e) && e.hand == Opening(stream)
      modifies registry
      ensures Models(DoReader(e, Handle))
      ensures stream in registry.streams
      ensures registry.streams == old(registry.streams)[stream := registry.streams[stream]]
      ensures registry.streams[stream].chunks == [] && registry.streams[stream].rxOpen
    {
      var inbound := new Inbound();
      var displaced := registry.Register(stream, inbound);
    }

    method OnClose(stream: Id, ghost e: Endpoint)
      requires Models(e) && e.hand == Hand.Closing(stream)
      modifies registry
      ensures Models(DoReader(e, Handle)) && registry.streams == old(registry.streams) - {stream}
    {
      var removed := registry.Remove(stream);
    }

    /** The verdict stands and the echo is queued, lost, or left waiting. */
    method OnData(stream: Id, payload: seq<Byte>, ghost e: Endpoint) returns (waiting: Option<Frame>)
      requires Models(e) && e.hand == Looking(stream, payload)
      modifies this`frames, registry, registry.streams.Values
      ensures Models(Dispatched(e)) && waiting == ReplyInHand(Dispatched(e))
      ensures waiting.Some? ==> waiting.value == Close(stream)
      ensures frames == old(frames) || frames == old(frames) + [Close(stream)]
    {
      DeliveredKeepsWire(e);
      EchoOrNothing(e);
      assert Knows(e);
      var ok := registry.Deliver(stream, payload, e);
      waiting := None;
      if !ok {
        waiting := Reply(Close(stream));
      }
    }

    /** One reply; if the channel is full it is handed back. */
    method Reply(f: Frame) returns (waiting: Option<Frame>)
      requires taken <= |frames|
      modifies this`frames
      ensures waiting == if !writerGone && old(|frames|) - taken >= 256 then Some(f) else None
      ensures frames == if writerGone || waiting.Some? then old(frames) else old(frames) + [f]
    {
      var r := SendFrame(f);
      waiting := if r == MustWait then Some(f) else None;
    }

    /** The `match frame` of the reader, up to the reply it may have to wait with. The OPEN's channel is in the
        registry when this returns. */
    method Dispatch(f: Frame, ghost e: Endpoint) returns (waiting: Option<Frame>)
      requires Models(e) && e.hand == HandFor(f)
      modifies this, registry, registry.streams.Values
      ensures Models(Dispatched(e)) && waiting == ReplyInHand(Dispatched(e))
      ensures pongs == old(pongs) + if f.Pong? then 1 else 0
      ensures f.Ping? ==> frames == old(frames) + if writerGone || waiting.Some? then [] else [Pong(f.nonce)]
      ensures f.Ping? && waiting.Some? ==> waiting.value == Pong(f.nonce)
      ensures f.Open? ==> registry.streams.Keys == old(registry.streams.Keys) + {f.stream}
      ensures f.Close? ==> registry.streams.Keys == old(registry.streams.Keys) - {f.stream}
      ensures f.Open? || f.Close? || f.Pong? ==> waiting == None && frames == old(frames)
    {
      waiting := None;
      match f {
        case Open(stream) => OnOpen(stream, e);
        case Data(stream, payload) => waiting := OnData(stream, payload, e);
        case Close(stream) => OnClose(stream, e);
        case Ping(nonce) => waiting := Reply(Pong(nonce));
        case Pong(_) => pongs := pongs + 1;
      }
    }

    /** The reader goes on with a reply it was waiting with: enqueued once there is room, given up once the
        writer is gone. */
    method Resume(f: Frame, ghost e: Endpoint) returns (waiting: Option<Frame>)
      requires Models(e) && ReplyInHand(e) == Some(f)
      modifies this`frames
      ensures waiting.None? <==> Ready(e)
      ensures if waiting.None? then Models(DoReader(e, Handle)) else Models(e) && waiting == Some(f)
    {
      waiting := Reply(f);
    }

    /** `kill_with`, run without interruption by the killer `k`: the cause only if there is none yet, then
        the flag, then the fan-out, as three steps of the machine. */
    method KillWith(why: DeathCause, ghost e: Endpoint, ghost k: KillerId)
      requires Models(e) && k in e.death.killers
      requires e.death.killers[k] == Killer(why, AtCause, e.death.killers[k].logged)
      modifies this`cause, this`dead, registry
      ensures ModelsBesidesWriter(KillDone(e, k)) && (k != KWriter ==> Models(KillDone(e, k)))
      ensures dead && registry.streams == map[]
      ensures cause == if old(cause).Some? then old(cause) else Some(why)
    {
      if cause.None? {
        cause := Some(why);
      }
      dead := true;
      registry.CloseAll();
    }

    /** The end of `writer_loop`: it kills the tunnel and drops the frame receiver, so that every later send
        fails. */
    method WriterExits(why: DeathCause, ghost e: Endpoint)
      requires Models(e) && KWriter in e.death.killers
      requires e.death.killers[KWriter] == Killer(why, AtCause, e.death.killers[KWriter].logged)
      modifies this`cause, this`dead, this`writerGone, registry
      ensures Models(KillDone(e, KWriter)) && writerGone
    {
      KillWith(why, e, KWriter);
      writerGone := true;
    }
  }
}
