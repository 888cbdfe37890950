// What one endpoint keeps of each stream's bytes: the uplink sends exactly what it read, the inbound
// channel accepts a gap-free prefix of the DATA that arrived, and the downlink writes what was accepted.
module Integrity {
  import opened Bytes
  import opened Mux
  import opened History
  import opened Endpoint
  import opened Bookkeeping

  // ── the three invariants ───────────────────────────────────────────────────

  /** The DATA enqueued for a stream against the bytes its uplink read. */
  predicate UpOk(st: Stream, data: seq<seq<Byte>>) {
    match st.up
    case UpIdle => data == []
    case UpReading => Flat(data) == st.read && !st.cut
    case UpSending(rest) => Flat(data) + rest == st.read && rest != [] && !st.cut
    case _ => if st.cut then Flat(data) <= st.read else Flat(data) == st.read
  }

  predicate UpInv(streams: map<Id, Stream>, enq: seq<Frame>) {
    forall i: Id :: if i in streams then UpOk(streams[i], DataOf(enq, i)) else DataOf(enq, i) == []
  }

  /** The chunk the reader is carrying for stream `i`. */
  function InHand(h: Hand, i: Id): seq<seq<Byte>> {
    if (h.Looking? || h.Delivering?) && h.id == i then [h.chunk] else []
  }

  /** The chunks accepted by a stream's channel against the DATA decoded for it. */
  predicate AccOk(st: Stream, data: seq<seq<Byte>>, registered: bool, hand: Hand, i: Id) {
    && st.acc <= data
    && (registered && st.rxOpen && hand != Stalled(i) ==> st.acc + InHand(hand, i) == data)
    && (hand.Delivering? && hand.id == i && st.rxOpen ==> st.acc + [hand.chunk] == data)
  }

  predicate AccInv(streams: map<Id, Stream>, seen: seq<Frame>, reg: set<Id>, hand: Hand) {
    && (forall i :: i in streams ==> AccOk(streams[i], DataOf(seen, i), i in reg, hand, i))
    && (hand.Opening? ==> DataOf(seen, hand.id) == [])
  }

  function Unwritten(st: Stream): seq<Byte> {
    (if st.down.DownWriting? then st.down.rest else []) + Flat(st.chan)
  }

  /** The bytes written locally against the chunks accepted. */
  predicate DownOk(st: Stream) {
    if st.rxOpen then st.written + Unwritten(st) == Flat(st.acc) else st.written <= Flat(st.acc)
  }

  predicate DownInv(streams: map<Id, Stream>) {
    forall i :: i in streams ==> DownOk(streams[i])
  }

  /** Every DATA frame the endpoint enqueues survives the encoding, and none is empty. */
  predicate Sendable(f: Frame) {
    f.Data? ==> 0 < |f.payload| <= MAX_DATA
  }

  predicate StreamInv(e: Endpoint) {
    && UpInv(e.streams, e.enq)
    && AccInv(e.streams, e.seen, e.reg, e.hand)
    && DownInv(e.streams)
    && forall k :: 0 <= k < |e.enq| ==> Sendable(e.enq[k])
  }

  // ── the uplink ─────────────────────────────────────────────────────────────

  lemma UpUpdate(streams: map<Id, Stream>, enq: seq<Frame>, i: Id, st: Stream)
    requires UpInv(streams, enq) && UpOk(st, DataOf(enq, i))
    ensures UpInv(streams[i := st], enq)
  {
  }

  /** A frame other than DATA. */
  lemma UpControl(e: Endpoint, f: Frame)
    requires UpInv(e.streams, e.enq) && !f.Data?
    ensures UpInv(e.streams, Sent(e, f))
  {
    DataOfSnoc(e.enq, f);
    forall i: Id
      ensures DataOf(Sent(e, f), i) == DataOf(e.enq, i)
    {
      assert Payloads(f, i) == [];
    }
  }

  lemma UpTask(e: Endpoint, t: TaskStep)
    requires UpInv(e.streams, e.enq) && TaskEnabled(e, t) && !t.Alloc?
    requires if t.Register? then t.i !in e.streams else PhaseOk(e.role, e.streams[t.i])
    ensures UpInv(DoTask(e, t).streams, DoTask(e, t).enq)
  {
    if t.SendOpen? {
      UpControl(e, Open(t.i));
    } else if t.Refuse? {
      UpControl(e, Close(t.i));
    }
    if !t.Register? {
      assert UpOk(e.streams[t.i], DataOf(TaskEnq(e, t), t.i));
    }
    UpUpdate(e.streams, TaskEnq(e, t), t.i, TaskStream(e, t));
  }

  /** One DATA chunk leaves: what is sent grows by what is still to be sent shrinks. */
  lemma UpSendStream(e: Endpoint, i: Id, data: seq<seq<Byte>>)
    requires PumpEnabled(e, UpSend(i)) && !WriterGone(e) && UpOk(e.streams[i], data)
    ensures UpOk(PumpStream(e, UpSend(i)), data + [NextChunk(e.streams[i].up.rest)])
  {
    var rest := e.streams[i].up.rest;
    var chunk := NextChunk(rest);
    FlatSnoc(data, chunk);
    assert rest == chunk + rest[|chunk|..];
    assert Flat(data) + chunk + rest[|chunk|..] == Flat(data) + rest;
  }

  lemma UpSwap(streams: map<Id, Stream>, enq: seq<Frame>, enq': seq<Frame>, i: Id, st: Stream)
    requires UpInv(streams, enq) && UpOk(st, DataOf(enq', i))
    requires forall j: Id :: j != i ==> DataOf(enq', j) == DataOf(enq, j)
    ensures UpInv(streams[i := st], enq')
  {
  }

  lemma UpSendKeeps(e: Endpoint, i: Id)
    requires UpInv(e.streams, e.enq) && PumpEnabled(e, UpSend(i)) && !WriterGone(e)
    ensures UpInv(DoPump(e, UpSend(i)).streams, DoPump(e, UpSend(i)).enq)
  {
    var f := Data(i, NextChunk(e.streams[i].up.rest));
    assert UpOk(e.streams[i], DataOf(e.enq, i));
    UpSendStream(e, i, DataOf(e.enq, i));
    DataOfSnoc(e.enq, f);
    assert DataOf(e.enq + [f], i) == DataOf(e.enq, i) + [f.payload];
    forall j: Id | j != i
      ensures DataOf(e.enq + [f], j) == DataOf(e.enq, j)
    {
      assert Payloads(f, j) == [];
    }
    UpSwap(e.streams, e.enq, e.enq + [f], i, PumpStream(e, UpSend(i)));
  }

  lemma UpPump(e: Endpoint, p: PumpStep)
    requires UpInv(e.streams, e.enq) && PumpEnabled(e, p)
    ensures UpInv(DoPump(e, p).streams, DoPump(e, p).enq)
  {
    if p.UpSend? && !WriterGone(e) {
      UpSendKeeps(e, p.i);
    } else {
      if p.UpClose? {
        UpControl(e, Close(p.i));
      }
      assert UpOk(e.streams[p.i], DataOf(PumpEnq(e, p), p.i));
      UpUpdate(e.streams, PumpEnq(e, p), p.i, PumpStream(e, p));
    }
  }

  lemma UpHand(e: Endpoint)
    requires UpInv(e.streams, e.enq) && HandEnabled(e) && (e.hand.Opening? ==> e.hand.id !in e.streams)
    ensures UpInv(HandStreams(e), HandEnq(e))
  {
    if e.hand.Echoing? {
      UpControl(e, Close(e.hand.id));
    } else if e.hand.Ponging? {
      UpControl(e, Pong(e.hand.nonce));
    } else if e.hand.Opening? {
      UpUpdate(e.streams, e.enq, e.hand.id, NewStream(Dialing));
    } else if e.hand.Delivering? {
      var i := e.hand.id;
      assert UpOk(e.streams[i], DataOf(e.enq, i));
      UpUpdate(e.streams, e.enq, i, HandStreams(e)[i]);
      assert !e.streams[i].rxOpen || HandStreams(e) == e.streams[i := HandStreams(e)[i]];
    }
  }

  lemma UpStep(e: Endpoint, a: Step)
    requires Phases(e) && e.pending !! e.streams.Keys && UpInv(e.streams, e.enq) && Enabled(e, a)
    ensures UpInv(Do(e, a).streams, Do(e, a).enq)
  {
    match a
    case Task(t) => if !t.Alloc? { UpTask(e, t); }
    case Pump(p) => UpPump(e, p);
    case Reader(r) => if r.Handle? { UpHand(e); }
    case Wire(w) => if w.SendPing? { UpControl(e, Ping(w.nonce)); }
    case Kill(s) =>
  }

  /** At most one frame is enqueued by a step, and if it is DATA then it is one chunk of some uplink. */
  lemma EnqueuedByStep(e: Endpoint, a: Step) returns (f: Frame)
    requires Enabled(e, a)
    ensures Do(e, a).enq == e.enq || Do(e, a).enq == e.enq + [f]
    ensures f.Data? ==> f.stream in e.streams && e.streams[f.stream].up.UpSending?
                        && f.payload == NextChunk(e.streams[f.stream].up.rest)
  {
    match a
    case Task(t) => f := if t.SendOpen? then Open(t.i) else if t.Refuse? then Close(t.i) else Close(0);
    case Pump(p) => f := if p.UpSend? then Data(p.i, NextChunk(e.streams[p.i].up.rest)) else Close(p.i);
    case Reader(r) =>
      f := if e.hand.Echoing? then Close(e.hand.id) else if e.hand.Ponging? then Pong(e.hand.nonce) else Close(0);
    case Wire(w) => f := if w.SendPing? then Ping(w.nonce) else Close(0);
    case Kill(s) => f := Close(0);
  }

  lemma SendableStep(e: Endpoint, a: Step)
    requires UpInv(e.streams, e.enq) && Enabled(e, a)
    requires forall k :: 0 <= k < |e.enq| ==> Sendable(e.enq[k])
    ensures forall k :: 0 <= k < |Do(e, a).enq| ==> Sendable(Do(e, a).enq[k])
  {
    var f := EnqueuedByStep(e, a);
    if f.Data? {
      assert UpOk(e.streams[f.stream], DataOf(e.enq, f.stream));
    }
  }

  // ── the inbound channel ────────────────────────────────────────────────────

  /** A step that leaves the reader alone: entries, receivers and senders can only go away. */
  lemma AccUpdate(e: Endpoint, i: Id, st: Stream, reg: set<Id>)
    requires AccInv(e.streams, e.seen, e.reg, e.hand) && i in e.streams && reg <= e.reg
    requires st.acc == e.streams[i].acc && (st.rxOpen ==> e.streams[i].rxOpen)
    ensures AccInv(e.streams[i := st], e.seen, reg, e.hand)
  {
    assert AccOk(e.streams[i], DataOf(e.seen, i), i in e.reg, e.hand, i);
  }

  lemma AccRegister(e: Endpoint, i: Id)
    requires Book(e) && AccInv(e.streams, e.seen, e.reg, e.hand) && TaskEnabled(e, Register(i))
    ensures AccInv(e.streams[i := NewStream(Registered)], e.seen, e.reg + {i}, e.hand)
  {
    assert i !in Ids(e.seen);
    NoIdNoData(e.seen, i);
  }

  lemma AccTask(e: Endpoint, t: TaskStep)
    requires Book(e) && AccInv(e.streams, e.seen, e.reg, e.hand) && TaskEnabled(e, t) && !t.Alloc?
    ensures AccInv(DoTask(e, t).streams, e.seen, DoTask(e, t).reg, e.hand)
  {
    if t.Register? {
      AccRegister(e, t.i);
    } else {
      AccUpdate(e, t.i, TaskStream(e, t), TaskReg(e, t));
    }
  }

  lemma AccPump(e: Endpoint, p: PumpStep)
    requires AccInv(e.streams, e.seen, e.reg, e.hand) && PumpEnabled(e, p)
    ensures AccInv(DoPump(e, p).streams, e.seen, e.reg, e.hand)
  {
    AccUpdate(e, p.i, PumpStream(e, p), e.reg);
  }

  lemma AccRead(e: Endpoint, f: Frame)
    requires AccInv(e.streams, e.seen, e.reg, Idle) && (f.Open? ==> f.stream !in Ids(e.seen))
    ensures AccInv(e.streams, e.seen + [f], e.reg, HandFor(f))
  {
    DataOfSnoc(e.seen, f);
    if f.Open? {
      NoIdNoData(e.seen, f.stream);
    }
    forall i | i in e.streams
      ensures AccOk(e.streams[i], DataOf(e.seen + [f], i), i in e.reg, HandFor(f), i)
    {
      assert DataOf(e.seen + [f], i) == DataOf(e.seen, i) + Payloads(f, i);
      assert AccOk(e.streams[i], DataOf(e.seen, i), i in e.reg, Idle, i);
    }
  }

  lemma AccHand(e: Endpoint)
    requires AccInv(e.streams, e.seen, e.reg, e.hand) && HandEnabled(e)
    requires e.hand.Opening? ==> e.hand.id !in e.streams
    ensures AccInv(HandStreams(e), e.seen, HandReg(e), NextHand(e))
  {
    forall i | i in HandStreams(e)
      ensures AccOk(HandStreams(e)[i], DataOf(e.seen, i), i in HandReg(e), NextHand(e), i)
    {
      if i in e.streams {
        assert AccOk(e.streams[i], DataOf(e.seen, i), i in e.reg, e.hand, i);
      }
    }
  }

  lemma AccReader(e: Endpoint, r: ReaderStep)
    requires Phases(e) && AccInv(e.streams, e.seen, e.reg, e.hand) && ReaderEnabled(e, r)
    requires r.Read? && r.f.Open? ==> r.f.stream !in Ids(e.seen)
    ensures var e' := DoReader(e, r); AccInv(e'.streams, e'.seen, e'.reg, e'.hand)
  {
    if r.Read? {
      AccRead(e, r.f);
    } else if r.Handle? {
      AccHand(e);
    }
  }

  lemma AccKill(e: Endpoint, s: KillStep)
    requires AccInv(e.streams, e.seen, e.reg, e.hand) && KillEnabled(e, s)
    ensures var e' := DoKill(e, s); AccInv(e'.streams, e'.seen, e'.reg, e'.hand)
  {
    var e' := DoKill(e, s);
    forall i | i in e'.streams
      ensures AccOk(e'.streams[i], DataOf(e'.seen, i), i in e'.reg, e'.hand, i)
    {
      assert AccOk(e.streams[i], DataOf(e.seen, i), i in e.reg, e.hand, i);
    }
  }

  lemma AccWire(e: Endpoint, w: WireStep)
    requires AccInv(e.streams, e.seen, e.reg, e.hand) && WireEnabled(e, w)
    ensures var e' := DoWire(e, w); AccInv(e'.streams, e'.seen, e'.reg, e'.hand)
  {
  }

  lemma AccStep(e: Endpoint, a: Step)
    requires Book(e) && AccInv(e.streams, e.seen, e.reg, e.hand) && StepOk(e, a)
    ensures var e' := Do(e, a); AccInv(e'.streams, e'.seen, e'.reg, e'.hand)
  {
    match a
    case Task(t) => if !t.Alloc? { AccTask(e, t); }
    case Pump(p) => AccPump(e, p);
    case Reader(r) => AccReader(e, r);
    case Wire(w) => AccWire(e, w);
    case Kill(s) => AccKill(e, s);
  }

  // ── the downlink ───────────────────────────────────────────────────────────

  lemma DownTakeKeeps(st: Stream)
    requires DownOk(st) && st.down == DownRecv && |st.chan| > 0
    ensures DownOk(st.(down := DownWriting(st.chan[0]), chan := st.chan[1..]))
  {
    FlatCons(st.chan[0], st.chan[1..]);
    assert st.chan == [st.chan[0]] + st.chan[1..];
    assert Unwritten(st) == [] + (st.chan[0] + Flat(st.chan[1..]));
  }

  lemma DownWriteKeeps(st: Stream, n: nat)
    requires DownOk(st) && st.rxOpen && st.down.DownWriting? && n <= |st.down.rest|
    ensures DownOk(st.(written := st.written + st.down.rest[..n],
                       down := if n == |st.down.rest| then DownRecv else DownWriting(st.down.rest[n..])))
  {
    var rest, later := st.down.rest, Flat(st.chan);
    assert st.written + (rest + later) == (st.written + rest[..n]) + (rest[n..] + later);
  }

  lemma DownPump(e: Endpoint, p: PumpStep)
    requires PumpEnabled(e, p) && PhaseOk(e.role, e.streams[p.i]) && DownOk(e.streams[p.i])
    ensures DownOk(PumpStream(e, p))
  {
    if p.DownTake? {
      DownTakeKeeps(e.streams[p.i]);
    } else if p.DownWrite? {
      DownWriteKeeps(e.streams[p.i], p.n);
    }
  }

  lemma DownAccept(st: Stream, chunk: seq<Byte>)
    requires DownOk(st) && st.rxOpen
    ensures DownOk(st.(chan := st.chan + [chunk], acc := st.acc + [chunk]))
  {
    FlatSnoc(st.chan, chunk);
    FlatSnoc(st.acc, chunk);
    var st' := st.(chan := st.chan + [chunk], acc := st.acc + [chunk]);
    assert Unwritten(st') == Unwritten(st) + chunk;
    assert st.written + (Unwritten(st) + chunk) == (st.written + Unwritten(st)) + chunk;
  }

  lemma DownTask(e: Endpoint, t: TaskStep)
    requires TaskEnabled(e, t) && !t.Alloc?
    requires !t.Register? ==> PhaseOk(e.role, e.streams[t.i]) && DownOk(e.streams[t.i])
    ensures DownOk(TaskStream(e, t))
  {
  }

  lemma DownHand(e: Endpoint)
    requires DownInv(e.streams) && HandEnabled(e)
    ensures DownInv(HandStreams(e))
  {
    if e.hand.Delivering? && e.streams[e.hand.id].rxOpen {
      DownAccept(e.streams[e.hand.id], e.hand.chunk);
    }
  }

  lemma DownStep(e: Endpoint, a: Step)
    requires Phases(e) && DownInv(e.streams) && Enabled(e, a)
    ensures DownInv(Do(e, a).streams)
  {
    match a
    case Task(t) => if !t.Alloc? { DownTask(e, t); }
    case Pump(p) => DownPump(e, p);
    case Reader(r) => if r.Handle? { DownHand(e); }
    case Wire(w) =>
    case Kill(s) =>
  }

  lemma StreamStep(e: Endpoint, a: Step)
    requires Book(e) && StreamInv(e) && StepOk(e, a)
    ensures StreamInv(Do(e, a))
  {
    UpStep(e, a);
    AccStep(e, a);
    DownStep(e, a);
    SendableStep(e, a);
  }
}
