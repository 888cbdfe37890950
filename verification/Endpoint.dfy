// One end of a tunnel (src/carrier.rs, with the stream tasks of src/client.rs and src/server.rs) as a
// state machine. Every await of the source is a step boundary. A channel is recorded by its history and
// a cursor: `enq` holds every frame the frame channel ever accepted, `taken` how many of them the writer
// has received, `sent` how many have left on the wire; `seen` is every frame the reader has decoded.
module Endpoint {
  import opened Bytes
  import opened Mux

  const FRAME_CHANNEL_CAPACITY := 256
  const INBOUND_CAPACITY := 64
  const READ_BUF := MAX_DATA

  datatype Role = Client | Server

  /** Where the owner of an inbound receiver stands until the pump takes it over. */
  datatype TaskPc =
    | Registered      // client: entry in the registry, OPEN not yet enqueued
    | Opened          // client: OPEN enqueued, death flag not yet re-checked
    | Checked         // client: flag seen unset, pump not yet spawned
    | Abandoned       // client: attempt given up, receiver dropped
    | Dialing         // server: on_open is connecting upstream
    | DialFailed      // server: connect failed, entry not yet removed
    | Unregistered    // server: entry removed, CLOSE not yet enqueued
    | Refused         // server: on_open returned without a pump
    | Pumping         // the pump was spawned

  /** Uplink half of a pump: local socket to DATA frames. */
  datatype UpPc = UpIdle | UpReading | UpSending(rest: seq<Byte>) | UpClosing | UpDone

  /** Downlink half of a pump: inbound chunks to local writes. */
  datatype DownPc = DownIdle | DownRecv | DownWriting(rest: seq<Byte>) | DownDone

  datatype Stream = Stream(
    task: TaskPc,
    chan: seq<seq<Byte>>,      // chunks waiting in the inbound channel
    rxOpen: bool,              // the receiver has not been dropped
    acc: seq<seq<Byte>>,       // every chunk the channel ever accepted
    up: UpPc,
    read: seq<Byte>,           // every byte read from the local socket
    cut: bool,                 // the uplink stopped because a send failed
    down: DownPc,
    written: seq<Byte>,        // every byte written to the local socket
    fin: bool                  // the local write side was FINed
  )

  function NewStream(task: TaskPc): Stream {
    Stream(task, [], true, [], UpIdle, [], false, DownIdle, [], false)
  }

  /** What the reader is doing between two awaits of `reader_loop`. */
  datatype Hand =
    | Idle
    | Opening(id: Id)
    | Looking(id: Id, chunk: seq<Byte>)       // deliver: before the registry lookup
    | Delivering(id: Id, chunk: seq<Byte>)    // deliver: holding a clone of the sender
    | Stalled(id: Id)                         // deliver: timed out, entry not yet removed
    | Echoing(id: Id)                         // about to enqueue the echoed CLOSE
    | Closing(id: Id)
    | Ponging(nonce: Nonce)
    | Counting

  datatype DeathCause =
    | PeerClosed | ReadError | WriteError | WireCorruption | BadFrame | KeepaliveTimeout | Killed

  datatype KillerId = KReader | KWriter | KKeepalive | KExternal(n: nat)

  /** Where one killer stands in `log_tunnel_death` and `kill_with`. */
  datatype KillPc = AtCheck | AtLog | AtCause | AtFlag | AtClear | Returned

  datatype Killer = Killer(cause: DeathCause, pc: KillPc, logged: bool)

  /** The shared death state: the watch flag, the cause slot, and every killer that ever started. */
  datatype Death = Death(
    dead: bool,
    cause: Option<DeathCause>,
    causedBy: Option<KillerId>,       // whose write set the cause
    killers: map<KillerId, Killer>
  )

  datatype Endpoint = Endpoint(
    role: Role,
    allocs: nat,                      // how often alloc_id ran
    pending: set<Id>,                 // ids allocated and not yet registered
    streams: map<Id, Stream>,
    reg: set<Id>,                     // ids whose sender is in the registry
    enq: seq<Frame>, taken: nat, sent: nat,
    seen: seq<Frame>, hand: Hand, pongs: nat,
    death: Death,
    hurt: set<Id>                     // streams that stalled, or whose dial or local write failed
  )

  function Init(role: Role): Endpoint {
    Endpoint(role, 0, {}, map[], {}, [], 0, 0, [], Idle, 0, Death(false, None, None, map[]), {})
  }

  // ── helpers shared by the steps ────────────────────────────────────────────

  /** `fetch_add(1)` on an `AtomicU32` that starts at 1: the n-th value handed out, n counted from 0. */
  function AllocatedId(n: nat): Id {
    (1 + n) % U32_SIZE
  }

  predicate Started(e: Endpoint, k: KillerId) {
    k in e.death.killers
  }

  predicate HasReturned(e: Endpoint, k: KillerId) {
    k in e.death.killers && e.death.killers[k].pc == Returned
  }

  /** The frame receiver lives until `writer_loop` returns; after that every send fails. */
  predicate WriterGone(e: Endpoint) {
    HasReturned(e, KWriter)
  }

  /** A pending `send_frame` can complete: there is room, or the channel is closed. */
  predicate Ready(e: Endpoint) {
    WriterGone(e) || |e.enq| - e.taken < FRAME_CHANNEL_CAPACITY
  }

  /** The frame history after a `send_frame` completes; on a closed channel the frame is lost. */
  function Sent(e: Endpoint, f: Frame): seq<Frame> {
    if WriterGone(e) then e.enq else e.enq + [f]
  }

  /** Some sender of the stream's inbound channel still exists. */
  predicate HasSender(e: Endpoint, i: Id) {
    i in e.reg || (e.hand.Delivering? && e.hand.id == i)
  }

  function Min(a: nat, b: nat): nat {
    if a < b then a else b
  }

  // ── stream tasks: accept_connection and on_open ────────────────────────────

  datatype TaskStep =
    | Alloc
    | Register(i: Id)
    | SendOpen(i: Id)
    | CheckDead(i: Id)
    | Spawn(i: Id)
    | DialFails(i: Id)
    | Unregister(i: Id)
    | Refuse(i: Id)

  predicate TaskEnabled(e: Endpoint, t: TaskStep) {
    match t
    case Alloc => e.role == Client && e.allocs < U32_SIZE
    case Register(i) => e.role == Client && i in e.pending
    case SendOpen(i) => i in e.streams && e.streams[i].task == Registered && Ready(e)
    case CheckDead(i) => i in e.streams && e.streams[i].task == Opened
    case Spawn(i) => i in e.streams && (e.streams[i].task == Checked || e.streams[i].task == Dialing)
    case DialFails(i) => i in e.streams && e.streams[i].task == Dialing
    case Unregister(i) => i in e.streams && e.streams[i].task == DialFailed
    case Refuse(i) => i in e.streams && e.streams[i].task == Unregistered && Ready(e)
  }

  /** The stream after a step of its task. */
  function TaskStream(e: Endpoint, t: TaskStep): Stream
    requires TaskEnabled(e, t) && !t.Alloc?
  {
    match t
    case Register(_) => NewStream(Registered)
    case SendOpen(i) =>
      if WriterGone(e) then e.streams[i].(task := Abandoned, rxOpen := false) else e.streams[i].(task := Opened)
    case CheckDead(i) =>
      if e.death.dead then e.streams[i].(task := Abandoned, rxOpen := false) else e.streams[i].(task := Checked)
    case Spawn(i) => e.streams[i].(task := Pumping, up := UpReading, down := DownRecv)
    case DialFails(i) => e.streams[i].(task := DialFailed)
    case Unregister(i) => e.streams[i].(task := Unregistered)
    case Refuse(i) => e.streams[i].(task := Refused, rxOpen := false)
  }

  function TaskEnq(e: Endpoint, t: TaskStep): seq<Frame> {
    match t
    case SendOpen(i) => Sent(e, Open(i))
    case Refuse(i) => Sent(e, Close(i))
    case _ => e.enq
  }

  function TaskReg(e: Endpoint, t: TaskStep): set<Id> {
    match t
    case Register(i) => e.reg + {i}
    case Unregister(i) => e.reg - {i}
    case _ => e.reg
  }

  function DoTask(e: Endpoint, t: TaskStep): Endpoint
    requires TaskEnabled(e, t)
  {
    if t.Alloc? then e.(allocs := e.allocs + 1, pending := e.pending + {AllocatedId(e.allocs)})
    else
      e.(streams := e.streams[t.i := TaskStream(e, t)], enq := TaskEnq(e, t), reg := TaskReg(e, t),
         pending := if t.Register? then e.pending - {t.i} else e.pending,
         hurt := if t.DialFails? then e.hurt + {t.i} else e.hurt)
  }

  // ── pump_stream ────────────────────────────────────────────────────────────

  datatype PumpStep =
    | UpRead(i: Id, bytes: seq<Byte>)
    | UpSend(i: Id)
    | UpEof(i: Id)
    | UpClose(i: Id)
    | DownTake(i: Id)
    | DownWrite(i: Id, n: nat)
    | DownFails(i: Id)
    | DownEnds(i: Id)

  predicate PumpEnabled(e: Endpoint, p: PumpStep) {
    p.i in e.streams &&
    var st := e.streams[p.i];
    match p
    case UpRead(_, bytes) => st.up == UpReading && 0 < |bytes| <= READ_BUF
    case UpSend(_) => st.up.UpSending? && Ready(e)
    case UpEof(_) => st.up == UpReading
    case UpClose(_) => st.up == UpClosing && Ready(e)
    case DownTake(_) => st.down == DownRecv && |st.chan| > 0
    case DownWrite(_, n) => st.down.DownWriting? && n <= |st.down.rest| && (n > 0 || st.down.rest == [])
    case DownFails(_) => st.down.DownWriting?
    case DownEnds(_) => st.down == DownRecv && st.chan == [] && !HasSender(e, p.i)
  }

  /** The next DATA chunk of `CarrierHandle::send`. */
  function NextChunk(rest: seq<Byte>): seq<Byte> {
    rest[..Min(|rest|, MAX_DATA)]
  }

  /** The stream after a step of its pump. */
  function PumpStream(e: Endpoint, p: PumpStep): Stream
    requires PumpEnabled(e, p)
  {
    var st := e.streams[p.i];
    match p
    case UpRead(_, bytes) => st.(up := UpSending(bytes), read := st.read + bytes)
    case UpSend(_) =>
      if WriterGone(e) then st.(up := UpClosing, cut := true)
      else if |st.up.rest| <= MAX_DATA then st.(up := UpReading)
      else st.(up := UpSending(st.up.rest[MAX_DATA..]))
    case UpEof(_) => st.(up := UpClosing)
    case UpClose(_) => st.(up := UpDone)
    case DownTake(_) => st.(down := DownWriting(st.chan[0]), chan := st.chan[1..])
    case DownWrite(_, n) =>
      st.(written := st.written + st.down.rest[..n],
          down := if n == |st.down.rest| then DownRecv else DownWriting(st.down.rest[n..]))
    case DownFails(_) => st.(down := DownDone, fin := true, rxOpen := false)
    case DownEnds(_) => st.(down := DownDone, fin := true, rxOpen := false)
  }

  function PumpEnq(e: Endpoint, p: PumpStep): seq<Frame>
    requires PumpEnabled(e, p)
  {
    match p
    case UpSend(i) => Sent(e, Data(i, NextChunk(e.streams[i].up.rest)))
    case UpClose(i) => Sent(e, Close(i))
    case _ => e.enq
  }

  function DoPump(e: Endpoint, p: PumpStep): Endpoint
    requires PumpEnabled(e, p)
  {
    e.(streams := e.streams[p.i := PumpStream(e, p)], enq := PumpEnq(e, p),
       hurt := if p.DownFails? then e.hurt + {p.i} else e.hurt)
  }

  // ── reader_loop ────────────────────────────────────────────────────────────

  datatype ReaderStep = Read(f: Frame) | Handle | Timeout

  function HandFor(f: Frame): Hand {
    match f
    case Open(i) => Opening(i)
    case Data(i, payload) => Looking(i, payload)
    case Close(i) => Closing(i)
    case Ping(nonce) => Ponging(nonce)
    case Pong(_) => Counting
  }

  /** How many steps the reader needs at most to be done with the frame in hand. */
  function HandRank(h: Hand): nat {
    match h
    case Idle => 0
    case Looking(_, _) => 4
    case Delivering(_, _) => 3
    case Stalled(_) => 2
    case _ => 1
  }

  predicate ReaderEnabled(e: Endpoint, r: ReaderStep) {
    match r
    case Read(_) => e.hand == Idle && !Started(e, KReader)
    case Handle => HandEnabled(e)
    case Timeout =>
      && e.hand.Delivering? && e.hand.id in e.streams
      && e.streams[e.hand.id].rxOpen && |e.streams[e.hand.id].chan| >= INBOUND_CAPACITY
  }

  predicate HandEnabled(e: Endpoint) {
    match e.hand
    case Idle => false
    case Delivering(i, _) =>
      i in e.streams && (e.streams[i].rxOpen ==> |e.streams[i].chan| < INBOUND_CAPACITY)
    case Echoing(_) => Ready(e)
    case Ponging(_) => Ready(e)
    case _ => true
  }

  function NextHand(e: Endpoint): Hand
    requires HandEnabled(e)
  {
    match e.hand
    case Looking(i, chunk) => if i in e.reg then Delivering(i, chunk) else Echoing(i)
    case Delivering(i, _) => if e.streams[i].rxOpen then Idle else Echoing(i)
    case Stalled(i) => Echoing(i)
    case _ => Idle
  }

  function HandStreams(e: Endpoint): map<Id, Stream>
    requires HandEnabled(e)
  {
    match e.hand
    case Opening(i) => e.streams[i := NewStream(Dialing)]
    case Delivering(i, chunk) =>
      var st := e.streams[i];
      if st.rxOpen then e.streams[i := st.(chan := st.chan + [chunk], acc := st.acc + [chunk])] else e.streams
    case _ => e.streams
  }

  function HandReg(e: Endpoint): set<Id> {
    match e.hand
    case Opening(i) => e.reg + {i}
    case Stalled(i) => e.reg - {i}
    case Closing(i) => e.reg - {i}
    case _ => e.reg
  }

  function HandEnq(e: Endpoint): seq<Frame> {
    match e.hand
    case Echoing(i) => Sent(e, Close(i))
    case Ponging(nonce) => Sent(e, Pong(nonce))
    case _ => e.enq
  }

  function DoHand(e: Endpoint): Endpoint
    requires HandEnabled(e)
  {
    e.(hand := NextHand(e), streams := HandStreams(e), reg := HandReg(e), enq := HandEnq(e),
       pongs := if e.hand.Counting? then e.pongs + 1 else e.pongs)
  }

  function DoReader(e: Endpoint, r: ReaderStep): Endpoint
    requires ReaderEnabled(e, r)
  {
    match r
    case Read(f) => e.(seen := e.seen + [f], hand := HandFor(f))
    case Handle => DoHand(e)
    case Timeout => e.(hand := Stalled(e.hand.id), hurt := e.hurt + {e.hand.id})
  }

  // ── writer_loop and the keepalive's PING ───────────────────────────────────

  datatype WireStep = Take | Write | SendPing(nonce: Nonce)

  predicate WireEnabled(e: Endpoint, w: WireStep) {
    match w
    case Take => !Started(e, KWriter) && e.taken == e.sent && e.taken < |e.enq|
    case Write => !Started(e, KWriter) && e.sent < e.taken
    case SendPing(_) => !Started(e, KKeepalive) && Ready(e)
  }

  function DoWire(e: Endpoint, w: WireStep): Endpoint
    requires WireEnabled(e, w)
  {
    match w
    case Take => e.(taken := e.taken + 1)
    case Write => e.(sent := e.sent + 1)
    case SendPing(nonce) => e.(enq := Sent(e, Ping(nonce)))
  }

  // ── log_tunnel_death, kill_with and kill, piece by piece ───────────────────

  datatype KillStep = Start(k: KillerId, cause: DeathCause) | Advance(k: KillerId)

  /** Why each killer may start, and with which cause. */
  predicate MayStart(e: Endpoint, k: KillerId, cause: DeathCause) {
    && !Started(e, k)
    && match k
       case KReader =>
         && e.hand == Idle
         && (cause == PeerClosed || cause == ReadError || cause == WireCorruption || cause == BadFrame
             || (cause == Killed && e.death.dead))
       case KWriter =>
         cause == WriteError || cause == WireCorruption || (cause == Killed && e.death.dead)
       case KKeepalive => cause == KeepaliveTimeout
       case KExternal(_) => cause == Killed
  }

  predicate KillEnabled(e: Endpoint, s: KillStep) {
    match s
    case Start(k, cause) => MayStart(e, k, cause)
    case Advance(k) => Started(e, k) && !HasReturned(e, k)
  }

  /** The next piece of killer `k`; each piece is one step, other tasks run in between. */
  function AdvanceDeath(d: Death, k: KillerId): Death
    requires k in d.killers && d.killers[k].pc != Returned
  {
    var x := d.killers[k];
    match x.pc
    case AtCheck => d.(killers := d.killers[k := x.(pc := if d.cause.None? then AtLog else AtCause)])
    case AtLog => d.(killers := d.killers[k := x.(pc := AtCause, logged := true)])
    case AtCause =>
      Death(d.dead,
            if d.cause.None? then Some(x.cause) else d.cause,
            if d.cause.None? then Some(k) else d.causedBy,
            d.killers[k := x.(pc := AtFlag)])
    case AtFlag => d.(dead := true, killers := d.killers[k := x.(pc := AtClear)])
    case AtClear => d.(killers := d.killers[k := x.(pc := Returned)])
  }

  function StartDeath(d: Death, k: KillerId, cause: DeathCause): Death {
    d.(killers := d.killers[k := Killer(cause, if k.KExternal? then AtCause else AtCheck, false)])
  }

  function DoKill(e: Endpoint, s: KillStep): Endpoint
    requires KillEnabled(e, s)
  {
    match s
    case Start(k, cause) => e.(death := StartDeath(e.death, k, cause))
    case Advance(k) =>
      e.(death := AdvanceDeath(e.death, k),
         reg := if e.death.killers[k].pc == AtClear then {} else e.reg)
  }

  // ── all steps of an endpoint ───────────────────────────────────────────────

  datatype Step =
    | Task(t: TaskStep)
    | Pump(p: PumpStep)
    | Reader(r: ReaderStep)
    | Wire(w: WireStep)
    | Kill(s: KillStep)

  predicate Enabled(e: Endpoint, a: Step) {
    match a
    case Task(t) => TaskEnabled(e, t)
    case Pump(p) => PumpEnabled(e, p)
    case Reader(r) => ReaderEnabled(e, r)
    case Wire(w) => WireEnabled(e, w)
    case Kill(s) => KillEnabled(e, s)
  }

  function Do(e: Endpoint, a: Step): Endpoint
    requires Enabled(e, a)
  {
    match a
    case Task(t) => DoTask(e, t)
    case Pump(p) => DoPump(e, p)
    case Reader(r) => DoReader(e, r)
    case Wire(w) => DoWire(e, w)
    case Kill(s) => DoKill(e, s)
  }
}
