// CLOSE frames: what keeps the registries from leaking, and what makes a half-close exact.
module Closing {
  import opened Bytes
  import opened Mux
  import opened History
  import opened Endpoint
  import opened Bookkeeping
  import opened Integrity

  // ── entries go away ────────────────────────────────────────────────────────

  /** A CLOSE that arrived has removed the entry, a failed dial has removed it before it sends its CLOSE, and a
      task that finished has sent its CLOSE. */
  predicate CloseInv(e: Endpoint) {
    && (forall i :: i in e.reg && Mux.Close(i) in e.seen ==> e.hand == Hand.Closing(i))
    && (e.hand.Opening? ==> Mux.Close(e.hand.id) !in e.seen)
    && (forall i :: i in e.streams && (e.streams[i].task == Unregistered || e.streams[i].task == Refused)
          ==> i !in e.reg)
    && (forall i :: i in e.streams && (e.streams[i].up == UpDone || e.streams[i].task == Refused)
          ==> Mux.Close(i) in e.enq || WriterGone(e))
    && (forall i :: i in e.streams && e.streams[i].task == Abandoned ==> e.death.dead || WriterGone(e))
  }

  lemma CloseRegister(e: Endpoint, i: Id)
    requires CloseInv(e) && TaskEnabled(e, Register(i)) && i !in Ids(e.seen) && i !in e.streams
    ensures CloseInv(DoTask(e, Register(i)))
  {
    if Mux.Close(i) in e.seen { IdsOf(e.seen, Mux.Close(i)); }
  }

  lemma CloseTask(e: Endpoint, t: TaskStep)
    requires CloseInv(e) && TaskEnabled(e, t) && !t.Register?
    requires !t.Alloc? ==> PhaseOk(e.role, e.streams[t.i])
    ensures CloseInv(DoTask(e, t))
  {
  }

  lemma ClosePump(e: Endpoint, p: PumpStep)
    requires Phases(e) && CloseInv(e) && PumpEnabled(e, p)
    ensures CloseInv(DoPump(e, p))
  {
    PumpPhase(e, p);
  }

  lemma CloseReader(e: Endpoint, r: ReaderStep)
    requires Phases(e) && CloseInv(e) && ReaderEnabled(e, r)
    requires r.Read? && r.f.Open? ==> r.f.stream !in Ids(e.seen)
    ensures CloseInv(DoReader(e, r))
  {
    if r.Read? && r.f.Open? && Mux.Close(r.f.stream) in e.seen {
      IdsOf(e.seen, Mux.Close(r.f.stream));
    }
  }

  lemma CloseKill(e: Endpoint, s: KillStep)
    requires CloseInv(e) && KillEnabled(e, s)
    ensures CloseInv(DoKill(e, s))
  {
  }

  lemma CloseWire(e: Endpoint, w: WireStep)
    requires CloseInv(e) && WireEnabled(e, w)
    ensures CloseInv(DoWire(e, w))
  {
  }

  lemma CloseStep(e: Endpoint, a: Step)
    requires Phases(e) && CloseInv(e) && Enabled(e, a) && Fresh(e, a)
    ensures CloseInv(Do(e, a))
  {
    match a
    case Task(t) => if t.Register? { CloseRegister(e, t.i); } else { CloseTask(e, t); }
    case Pump(p) => ClosePump(e, p);
    case Reader(r) => CloseReader(e, r);
    case Wire(w) => CloseWire(e, w);
    case Kill(s) => CloseKill(e, s);
  }

  // ── streams nothing has happened to ────────────────────────────────────────

  /** No kill at this end, and no stall, failed dial or failed local write of stream `i`. */
  predicate Spared(e: Endpoint, i: Id) {
    e.death.killers == map[] && i !in e.hurt
  }

  predicate CleanStream(st: Stream, i: Id, e: Endpoint) {
    && (st.task == Registered || st.task == Opened || st.task == Checked || st.task == Dialing || st.task == Pumping)
    && !st.cut
    && (i in e.reg <==> Mux.Close(i) !in e.seen || e.hand == Hand.Closing(i))
    && (st.down == DownDone ==> i !in e.reg && st.chan == [] && st.written == Flat(st.acc))
    && st.acc + InHand(e.hand, i) == DataOf(e.seen, i)
    && (Mux.Close(i) in e.enq <==> st.up == UpDone)
  }

  /** What the reader may be doing about stream `i`. */
  predicate CleanHand(e: Endpoint, i: Id) {
    && (e.hand.Echoing? || e.hand.Stalled? ==> e.hand.id != i)
    && ((e.hand.Looking? || e.hand.Delivering?) && e.hand.id == i ==> i in e.reg && i in e.streams)
    && (e.hand == Hand.Opening(i) ==> Mux.Close(i) !in e.seen && DataOf(e.seen, i) == [])
    && (e.hand == Hand.Closing(i) ==> Mux.Close(i) in e.seen)
  }

  predicate CleanInv(e: Endpoint, i: Id) {
    && e.death.killers == map[] && !e.death.dead
    && CleanHand(e, i)
    && (i in e.streams ==> CleanStream(e.streams[i], i, e))
    && (Mux.Close(i) in e.enq ==> i in e.streams)
    && SilentAfterClose(e.enq, i)
  }

  /** What a peer guarantees of the frames of `i` it sends. */
  predicate CleanIn(e: Endpoint, f: Frame, i: Id) {
    (f.Data? || f.Close?) && f.stream == i ==> i in e.streams && Mux.Close(i) !in e.seen
  }

  lemma CleanTask(e: Endpoint, t: TaskStep, i: Id)
    requires Phases(e) && CleanInv(e, i) && TaskEnabled(e, t) && !t.Alloc? && !t.Register?
    requires Spared(DoTask(e, t), i)
    ensures CleanInv(DoTask(e, t), i)
  {
    assert PhaseOk(e.role, e.streams[t.i]);
    if t.SendOpen? {
      SilentAfterCloseSnoc(e.enq, Mux.Open(t.i), i);
    } else if t.Refuse? {
      SilentAfterCloseSnoc(e.enq, Mux.Close(t.i), i);
    }
  }

  lemma CleanRegister(e: Endpoint, j: Id, i: Id)
    requires Phases(e) && CleanInv(e, i) && TaskEnabled(e, Register(j)) && j !in Ids(e.seen) && j !in e.streams
    ensures CleanInv(DoTask(e, Register(j)), i)
  {
    if j == i {
      NoIdNoData(e.seen, i);
      if Mux.Close(i) in e.seen { IdsOf(e.seen, Mux.Close(i)); }
      assert InHand(e.hand, i) == [] by {
        assert HandIds(e.hand) <= Ids(e.seen);
      }
    }
  }

  lemma SilentPump(e: Endpoint, p: PumpStep, i: Id)
    requires SilentAfterClose(e.enq, i) && PumpEnabled(e, p)
    requires p.i == i && e.streams[i].up != UpDone ==> Mux.Close(i) !in e.enq
    ensures SilentAfterClose(PumpEnq(e, p), i)
  {
    if p.UpSend? {
      SilentAfterCloseSnoc(e.enq, Data(p.i, NextChunk(e.streams[p.i].up.rest)), i);
    } else if p.UpClose? {
      SilentAfterCloseSnoc(e.enq, Mux.Close(p.i), i);
    }
  }

  lemma CleanPumpStream(e: Endpoint, p: PumpStep)
    requires PumpEnabled(e, p) && CleanStream(e.streams[p.i], p.i, e) && !p.DownFails?
    requires e.death.killers == map[] && PhaseOk(e.role, e.streams[p.i]) && DownOk(e.streams[p.i])
    ensures CleanStream(PumpStream(e, p), p.i, DoPump(e, p))
  {
    if p.UpClose? {
      assert Mux.Close(p.i) in PumpEnq(e, p);
    } else {
      assert Mux.Close(p.i) in PumpEnq(e, p) <==> Mux.Close(p.i) in e.enq;
    }
  }

  lemma OtherPump(e: Endpoint, p: PumpStep, i: Id)
    requires PumpEnabled(e, p) && p.i != i && i in e.streams && CleanStream(e.streams[i], i, e)
    ensures CleanStream(e.streams[i], i, DoPump(e, p))
  {
    assert Mux.Close(i) in PumpEnq(e, p) <==> Mux.Close(i) in e.enq;
  }

  lemma CleanPump(e: Endpoint, p: PumpStep, i: Id)
    requires Phases(e) && CleanInv(e, i) && DownInv(e.streams) && PumpEnabled(e, p) && Spared(DoPump(e, p), i)
    ensures CleanInv(DoPump(e, p), i)
  {
    assert PhaseOk(e.role, e.streams[p.i]) && DownOk(e.streams[p.i]);
    SilentPump(e, p, i);
    if p.i == i {
      CleanPumpStream(e, p);
    } else if i in e.streams {
      OtherPump(e, p, i);
    }
  }

  lemma CleanReadStream(e: Endpoint, f: Frame, i: Id)
    requires ReaderEnabled(e, Read(f)) && i in e.streams && CleanStream(e.streams[i], i, e) && CleanIn(e, f, i)
    ensures CleanStream(e.streams[i], i, DoReader(e, Read(f)))
  {
    DataOfSnoc(e.seen, f);
    PayloadInHand(f, i);
    assert e.streams[i].acc == e.streams[i].acc + InHand(Idle, i);
    assert DataOf(e.seen + [f], i) == e.streams[i].acc + InHand(HandFor(f), i);
  }

  lemma PayloadInHand(f: Frame, i: Id)
    ensures InHand(HandFor(f), i) == Payloads(f, i)
  {
  }

  lemma CleanRead(e: Endpoint, f: Frame, i: Id)
    requires Phases(e) && CleanInv(e, i) && ReaderEnabled(e, Read(f)) && CleanIn(e, f, i)
    requires f.Open? ==> f.stream !in Ids(e.seen)
    ensures CleanInv(DoReader(e, Read(f)), i)
  {
    if f == Mux.Open(i) {
      DataOfSnoc(e.seen, f);
      NoIdNoData(e.seen, i);
      if Mux.Close(i) in e.seen { IdsOf(e.seen, Mux.Close(i)); }
    }
    if i in e.streams {
      CleanReadStream(e, f, i);
    }
  }

  lemma CleanOpening(e: Endpoint, i: Id)
    requires Phases(e) && CleanInv(e, i) && e.hand.Opening?
    ensures CleanInv(DoHand(e), i)
  {
  }

  lemma DeliveredStream(e: Endpoint, i: Id)
    requires e.hand.Delivering? && HandEnabled(e) && i in e.streams && CleanStream(e.streams[i], i, e)
    requires i == e.hand.id ==> e.streams[i].rxOpen && e.streams[i].down != DownDone
    ensures CleanStream(DoHand(e).streams[i], i, DoHand(e))
  {
  }

  lemma CleanDelivering(e: Endpoint, i: Id)
    requires Phases(e) && CleanInv(e, i) && e.hand.Delivering? && HandEnabled(e)
    ensures CleanInv(DoHand(e), i)
  {
    if i in e.streams {
      assert PhaseOk(e.role, e.streams[i]);
      DeliveredStream(e, i);
    }
  }

  lemma CleanHandle(e: Endpoint, i: Id)
    requires CleanInv(e, i) && HandEnabled(e) && !e.hand.Opening? && !e.hand.Delivering?
    ensures CleanInv(DoHand(e), i)
  {
    if e.hand.Ponging? {
      SilentAfterCloseSnoc(e.enq, Pong(e.hand.nonce), i);
    } else if e.hand.Echoing? {
      SilentAfterCloseSnoc(e.enq, Mux.Close(e.hand.id), i);
    }
  }

  lemma CleanTimeout(e: Endpoint, i: Id)
    requires CleanInv(e, i) && ReaderEnabled(e, Timeout) && e.hand.id != i
    ensures CleanInv(DoReader(e, Timeout), i)
  {
  }

  lemma CleanWire(e: Endpoint, w: WireStep, i: Id)
    requires CleanInv(e, i) && WireEnabled(e, w)
    ensures CleanInv(DoWire(e, w), i)
  {
    if w.SendPing? {
      SilentAfterCloseSnoc(e.enq, Ping(w.nonce), i);
    }
  }

  lemma CleanAlloc(e: Endpoint, i: Id)
    requires CleanInv(e, i) && TaskEnabled(e, Alloc)
    ensures CleanInv(DoTask(e, Alloc), i)
  {
  }

  lemma CleanReader(e: Endpoint, r: ReaderStep, i: Id)
    requires Phases(e) && CleanInv(e, i) && ReaderEnabled(e, r) && Spared(DoReader(e, r), i)
    requires r.Read? ==> CleanIn(e, r.f, i) && (r.f.Open? ==> r.f.stream !in Ids(e.seen))
    ensures CleanInv(DoReader(e, r), i)
  {
    if r.Read? {
      CleanRead(e, r.f, i);
    } else if r.Timeout? {
      CleanTimeout(e, i);
    } else if e.hand.Opening? {
      CleanOpening(e, i);
    } else if e.hand.Delivering? {
      CleanDelivering(e, i);
    } else {
      CleanHandle(e, i);
    }
  }

  lemma CleanStep(e: Endpoint, a: Step, i: Id)
    requires Phases(e) && DownInv(e.streams) && Enabled(e, a) && Fresh(e, a)
    requires Spared(Do(e, a), i) && CleanInv(e, i)
    requires a.Reader? && a.r.Read? ==> CleanIn(e, a.r.f, i)
    ensures CleanInv(Do(e, a), i)
  {
    match a
    case Task(t) =>
      if t.Register? {
        CleanRegister(e, t.i, i);
      } else if t.Alloc? {
        CleanAlloc(e, i);
      } else {
        CleanTask(e, t, i);
      }
    case Pump(p) => CleanPump(e, p, i);
    case Reader(r) => CleanReader(e, r, i);
    case Wire(w) => CleanWire(e, w, i);
    case Kill(s) =>
  }
}
