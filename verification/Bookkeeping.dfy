// The bookkeeping every reachable endpoint keeps: cursors, task phases, and which stream ids may occur where.
module Bookkeeping {
  import opened Bytes
  import opened Mux
  import opened History
  import opened Endpoint

  /** `i` is one of the first `n` values of `alloc_id` (n at most 2^32). */
  predicate Issued(i: Id, n: nat) {
    if i == 0 then n >= U32_SIZE else i <= n
  }

  /** The first 2^32 allocations are pairwise different, and the next one starts over at 1. */
  lemma AllocationsAreFresh(m: nat, n: nat)
    ensures m < n < U32_SIZE ==> AllocatedId(m) != AllocatedId(n)
    ensures AllocatedId(m + U32_SIZE) == AllocatedId(m)
    ensures n < U32_SIZE ==> forall i: Id :: Issued(i, n) ==> i != AllocatedId(n)
    ensures n < U32_SIZE ==> forall i: Id :: Issued(i, n + 1) <==> Issued(i, n) || i == AllocatedId(n)
  {
  }

  predicate ClientTask(t: TaskPc) {
    t == Registered || t == Opened || t == Checked || t == Abandoned || t == Pumping
  }

  predicate ServerTask(t: TaskPc) {
    t == Dialing || t == DialFailed || t == Unregistered || t == Refused || t == Pumping
  }

  /** No pump half moves before the pump is spawned; the receiver lives until its owner is finished. */
  predicate PhaseOk(role: Role, st: Stream) {
    && (if role == Client then ClientTask(st.task) else ServerTask(st.task))
    && (st.task == Pumping <==> st.up != UpIdle)
    && (st.task == Pumping <==> st.down != DownIdle)
    && (st.task != Pumping ==> st.read == [] && st.written == [] && !st.cut)
    && (st.rxOpen <==> !(st.task == Abandoned || st.task == Refused || st.down == DownDone))
    && (st.fin <==> st.down == DownDone)
  }

  function HandIds(h: Hand): set<Id> {
    match h
    case Opening(i) => {i}
    case Looking(i, _) => {i}
    case Delivering(i, _) => {i}
    case Stalled(i) => {i}
    case Echoing(i) => {i}
    case Closing(i) => {i}
    case _ => {}
  }

  predicate Cursors(e: Endpoint) {
    e.sent <= e.taken <= e.sent + 1 && e.taken <= |e.enq|
  }

  predicate Phases(e: Endpoint) {
    && e.reg <= e.streams.Keys
    && (forall i :: i in e.streams ==> PhaseOk(e.role, e.streams[i]))
    && HandIds(e.hand) <= Ids(e.seen)
    && (e.hand.Delivering? ==> e.hand.id in e.streams)
    && (e.hand.Opening? ==> e.role == Server && e.hand.id !in e.streams && Open(e.hand.id) in e.seen)
  }

  predicate ClientIds(e: Endpoint) {
    && e.pending !! e.streams.Keys
    && e.allocs <= U32_SIZE
    && (forall i :: i in e.pending || i in e.streams ==> Issued(i, e.allocs))
    && Ids(e.seen) <= Ids(e.enq) <= e.streams.Keys
    && OpensFirst(e.enq)
    && (forall i :: i in e.streams ==> match e.streams[i].task
          case Registered => i !in Ids(e.enq)
          case Abandoned => true
          case _ => i in Ids(e.enq))
  }

  predicate ServerIds(e: Endpoint) {
    && e.allocs == 0 && e.pending == {}
    && (forall k :: 0 <= k < |e.enq| ==> !e.enq[k].Open?)
    && Ids(e.enq) <= Ids(e.seen)
    && (forall i :: i in e.streams ==> Open(i) in e.seen)
    && (forall i :: Open(i) in e.seen ==> i in e.streams || e.hand == Opening(i))
  }

  predicate Book(e: Endpoint) {
    && Cursors(e) && Phases(e)
    && (if e.role == Client then ClientIds(e) else ServerIds(e))
  }

  /** What the peer's own bookkeeping guarantees of a frame it sends (see `Tunnel`). */
  predicate InOk(e: Endpoint, f: Frame) {
    if e.role == Client
    then !f.Open? && (f.Addressed() ==> f.stream in Ids(e.enq))
    else f.Open? ==> f.stream !in Ids(e.seen)
  }

  predicate StepOk(e: Endpoint, a: Step) {
    Enabled(e, a) && (a.Reader? && a.r.Read? ==> InOk(e, a.r.f))
  }

  /** A step that makes a registry entry makes it for a stream nobody has spoken of yet. */
  predicate Fresh(e: Endpoint, a: Step) {
    && (a.Task? && a.t.Register? ==> a.t.i !in e.streams && a.t.i !in Ids(e.seen) && a.t.i !in Ids(e.enq))
    && (a.Reader? && a.r.Read? && a.r.f.Open? ==> a.r.f.stream !in Ids(e.seen))
  }

  lemma StepIsFresh(e: Endpoint, a: Step)
    requires Book(e) && StepOk(e, a)
    ensures Fresh(e, a)
  {
    if a.Task? && a.t.Register? {
      assert a.t.i !in Ids(e.enq);
    }
  }

  /** Enqueueing anything but an OPEN, on a stream that is already known, keeps the id rules. */
  lemma SentIds(e: Endpoint, f: Frame)
    requires Book(e) && !f.Open?
    requires Mentions(f) <= if e.role == Client then Ids(e.enq) else Ids(e.seen)
    ensures EnqOk(e, Sent(e, f))
  {
    IdsSnoc(e.enq, f);
    if e.role == Client {
      if f.Addressed() {
        OpenPrecedes(e.enq, f.stream);
      }
      OpensFirstSnoc(e.enq, f);
    }
  }

  /** A stream past its OPEN is known. */
  lemma StreamKnown(e: Endpoint, i: Id)
    requires Book(e) && i in e.streams
    requires e.streams[i].task != Registered && e.streams[i].task != Abandoned
    ensures i in if e.role == Client then Ids(e.enq) else Ids(e.seen)
  {
    if e.role == Server {
      IdsOf(e.seen, Open(i));
    } else {
      assert PhaseOk(e.role, e.streams[i]);
    }
  }

  predicate EnqOk(e: Endpoint, enq: seq<Frame>) {
    && |enq| >= |e.enq|
    && if e.role == Client
       then Ids(enq) == Ids(e.enq) && OpensFirst(enq)
       else Ids(enq) <= Ids(e.seen) && forall k :: 0 <= k < |enq| ==> !enq[k].Open?
  }

  /** A step that changes one existing stream, possibly enqueues a frame, and possibly drops registry entries. */
  lemma BookUpdate(e: Endpoint, i: Id, st: Stream, enq: seq<Frame>, reg: set<Id>, hurt: set<Id>)
    requires Book(e) && i in e.streams && PhaseOk(e.role, st) && EnqOk(e, enq) && reg <= e.reg
    requires e.role == Client ==>
               || st.task == Abandoned
               || (e.streams[i].task != Registered && e.streams[i].task != Abandoned && st.task != Registered)
    ensures Book(e.(streams := e.streams[i := st], enq := enq, reg := reg, hurt := hurt))
  {
  }

  lemma HandKnown(e: Endpoint)
    requires Book(e)
    ensures HandIds(e.hand) <= if e.role == Client then Ids(e.enq) else Ids(e.seen)
  {
  }

  // ── the steps ──────────────────────────────────────────────────────────────

  lemma BookAlloc(e: Endpoint)
    requires Book(e) && TaskEnabled(e, Alloc)
    ensures Book(DoTask(e, Alloc))
  {
    AllocationsAreFresh(0, e.allocs);
  }

  lemma BookRegister(e: Endpoint, i: Id)
    requires Book(e) && TaskEnabled(e, Register(i))
    ensures Book(DoTask(e, Register(i)))
  {
    assert i !in Ids(e.enq);
  }

  lemma BookSendOpen(e: Endpoint, i: Id)
    requires Book(e) && TaskEnabled(e, SendOpen(i))
    ensures Book(DoTask(e, SendOpen(i)))
  {
    IdsSnoc(e.enq, Open(i));
    assert PhaseOk(e.role, e.streams[i]);
    OpensFirstSnoc(e.enq, Open(i));
  }

  lemma TaskPhase(e: Endpoint, t: TaskStep)
    requires TaskEnabled(e, t) && !t.Alloc? && !t.Register? && PhaseOk(e.role, e.streams[t.i])
    ensures PhaseOk(e.role, TaskStream(e, t))
  {
  }

  lemma BookQuietTask(e: Endpoint, t: TaskStep)
    requires Book(e) && TaskEnabled(e, t)
    requires t.CheckDead? || t.Spawn? || t.DialFails? || t.Unregister?
    ensures Book(DoTask(e, t))
  {
    TaskPhase(e, t);
    BookUpdate(e, t.i, TaskStream(e, t), e.enq, TaskReg(e, t), DoTask(e, t).hurt);
  }

  lemma BookRefuse(e: Endpoint, i: Id)
    requires Book(e) && TaskEnabled(e, Refuse(i))
    ensures Book(DoTask(e, Refuse(i)))
  {
    TaskPhase(e, Refuse(i));
    StreamKnown(e, i);
    SentIds(e, Close(i));
    BookUpdate(e, i, TaskStream(e, Refuse(i)), Sent(e, Close(i)), e.reg, e.hurt);
  }

  lemma BookTask(e: Endpoint, t: TaskStep)
    requires Book(e) && TaskEnabled(e, t)
    ensures Book(DoTask(e, t))
  {
    match t
    case Alloc => BookAlloc(e);
    case Register(i) => BookRegister(e, i);
    case SendOpen(i) => BookSendOpen(e, i);
    case Refuse(i) => BookRefuse(e, i);
    case _ => BookQuietTask(e, t);
  }

  lemma PumpPhase(e: Endpoint, p: PumpStep)
    requires PumpEnabled(e, p) && PhaseOk(e.role, e.streams[p.i])
    ensures PhaseOk(e.role, PumpStream(e, p)) && e.streams[p.i].task == Pumping == PumpStream(e, p).task
  {
  }

  lemma BookPump(e: Endpoint, p: PumpStep)
    requires Book(e) && PumpEnabled(e, p)
    ensures Book(DoPump(e, p))
  {
    PumpPhase(e, p);
    StreamKnown(e, p.i);
    if p.UpSend? {
      SentIds(e, Data(p.i, NextChunk(e.streams[p.i].up.rest)));
    } else if p.UpClose? {
      SentIds(e, Close(p.i));
    }
    BookUpdate(e, p.i, PumpStream(e, p), PumpEnq(e, p), e.reg, DoPump(e, p).hurt);
  }

  lemma BookRead(e: Endpoint, f: Frame)
    requires Book(e) && ReaderEnabled(e, Read(f)) && InOk(e, f)
    ensures Book(DoReader(e, Read(f)))
  {
    IdsSnoc(e.seen, f);
    if f.Open? && Open(f.stream) in e.seen {
      IdsOf(e.seen, f);
    }
  }

  lemma BookDelivering(e: Endpoint)
    requires Book(e) && HandEnabled(e) && e.hand.Delivering?
    ensures Book(DoHand(e))
  {
    assert PhaseOk(e.role, e.streams[e.hand.id]);
  }

  lemma BookHand(e: Endpoint)
    requires Book(e) && HandEnabled(e) && !e.hand.Opening? && !e.hand.Delivering?
    ensures Book(DoHand(e))
  {
    HandKnown(e);
    if e.hand.Echoing? {
      SentIds(e, Close(e.hand.id));
    } else if e.hand.Ponging? {
      SentIds(e, Pong(e.hand.nonce));
    }
    assert EnqOk(e, HandEnq(e));
  }

  lemma BookOpening(e: Endpoint)
    requires Book(e) && e.hand.Opening?
    ensures Book(DoHand(e))
  {
  }

  lemma BookWire(e: Endpoint, w: WireStep)
    requires Book(e) && WireEnabled(e, w)
    ensures Book(DoWire(e, w))
  {
    if w.SendPing? {
      SentIds(e, Ping(w.nonce));
    }
  }

  lemma BookReader(e: Endpoint, r: ReaderStep)
    requires Book(e) && ReaderEnabled(e, r) && (r.Read? ==> InOk(e, r.f))
    ensures Book(DoReader(e, r))
  {
    if r.Read? {
      BookRead(e, r.f);
    } else if r.Handle? {
      if e.hand.Opening? {
        BookOpening(e);
      } else if e.hand.Delivering? {
        BookDelivering(e);
      } else {
        BookHand(e);
      }
    }
  }

  lemma BookKill(e: Endpoint, s: KillStep)
    requires Book(e) && KillEnabled(e, s)
    ensures Book(DoKill(e, s))
  {
  }

  lemma BookStep(e: Endpoint, a: Step)
    requires Book(e) && StepOk(e, a)
    ensures Book(Do(e, a))
  {
    match a
    case Task(t) => BookTask(e, t);
    case Pump(p) => BookPump(e, p);
    case Reader(r) => BookReader(e, r);
    case Wire(w) => BookWire(e, w);
    case Kill(s) => BookKill(e, s);
  }
}
