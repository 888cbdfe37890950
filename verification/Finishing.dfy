// How a downlink ends: what a FIN means in every run, and that it is never put off for ever.
module Finishing {
  import opened Bytes
  import opened Mux
  import opened Endpoint
  import opened Bookkeeping
  import opened Integrity
  import opened Tunnel
  import opened Futures
  import opened Guarantees

  // ── what a FIN means ───────────────────────────────────────────────────────

  /** No entry, and no clone of its sender in the reader's hand. */
  predicate NobodySends(e: Endpoint, i: Id) {
    i !in e.reg && (e.hand.Delivering? ==> e.hand.id != i)
  }

  /** A FIN behind every accepted byte leaves no sender, in the registry or in the reader's hand; any other FIN is
      that of a failed write. */
  predicate FinMeant(e: Endpoint, i: Id, st: Stream) {
    if st.written == Flat(st.acc) then NobodySends(e, i) && st.chan == [] else |st.written| < |Flat(st.acc)|
  }

  /** No empty chunk waits or is being written. */
  predicate ChunksFull(st: Stream) {
    && (forall k :: 0 <= k < |st.chan| ==> st.chan[k] != [])
    && (st.down.DownWriting? ==> st.down.rest != [])
  }

  predicate FinOk(e: Endpoint, i: Id) {
    i in e.streams ==> ChunksFull(e.streams[i]) && (e.streams[i].fin ==> FinMeant(e, i, e.streams[i]))
  }

  /** Nor does the reader hold one. */
  predicate HandFull(h: Hand) {
    h.Looking? || h.Delivering? ==> h.chunk != []
  }

  lemma FinTask(e: Endpoint, k: TaskStep, i: Id)
    requires TaskEnabled(e, k) && FinOk(e, i) && (k.Register? ==> k.i !in e.streams)
    ensures FinOk(DoTask(e, k), i) && DoTask(e, k).hand == e.hand
  {
  }

  /** A write that fails has something left of what was accepted; one that ends has nothing. */
  lemma FinBytes(st: Stream)
    requires DownOk(st) && st.rxOpen && ChunksFull(st)
    ensures st.down.DownWriting? ==> |st.written| < |Flat(st.acc)|
    ensures st.down == DownRecv && st.chan == [] ==> st.written == Flat(st.acc)
  {
    assert |Flat(st.acc)| == |st.written| + |Unwritten(st)|;
  }

  lemma FinPump(e: Endpoint, p: PumpStep, i: Id)
    requires PumpEnabled(e, p) && FinOk(e, i)
    requires p.i == i ==> PhaseOk(e.role, e.streams[i]) && DownOk(e.streams[i])
    ensures FinOk(DoPump(e, p), i) && DoPump(e, p).hand == e.hand
  {
    if p.i == i && e.streams[i].rxOpen {
      FinBytes(e.streams[i]);
    }
  }

  lemma FinReader(e: Endpoint, r: ReaderStep, i: Id)
    requires ReaderEnabled(e, r) && FinOk(e, i) && HandFull(e.hand)
    requires i in e.streams ==> PhaseOk(e.role, e.streams[i]) && e.hand != Hand.Opening(i)
    requires r.Read? ==> Sendable(r.f)
    ensures FinOk(DoReader(e, r), i) && HandFull(DoReader(e, r).hand)
  {
  }

  lemma FinKill(e: Endpoint, s: KillStep, i: Id)
    requires KillEnabled(e, s) && FinOk(e, i)
    ensures FinOk(DoKill(e, s), i) && DoKill(e, s).hand == e.hand
  {
  }

  lemma StreamOf(e: Endpoint, i: Id)
    requires Phases(e) && DownInv(e.streams) && i in e.streams
    ensures PhaseOk(e.role, e.streams[i]) && DownOk(e.streams[i]) && e.hand != Hand.Opening(i)
  {
  }

  lemma FinStep(e: Endpoint, a: Step, i: Id)
    requires Phases(e) && DownInv(e.streams) && Enabled(e, a) && Fresh(e, a)
    requires FinOk(e, i) && HandFull(e.hand) && (a.Reader? && a.r.Read? ==> Sendable(a.r.f))
    ensures FinOk(Do(e, a), i) && HandFull(Do(e, a).hand)
  {
    if i in e.streams { StreamOf(e, i); }
    match a
    case Task(k) => FinTask(e, k, i);
    case Pump(p) => FinPump(e, p, i);
    case Reader(r) => FinReader(e, r, i);
    case Wire(w) =>
    case Kill(s) => FinKill(e, s, i);
  }

  lemma FinAt(e: Endpoint, a: Step, i: Id, peer: Endpoint, pos: nat)
    requires LocalInv(e) && LocalInv(peer) && Enabled(e, a) && Fresh(e, a) && WireAllows(a, peer, pos)
    requires FinOk(e, i) && HandFull(e.hand)
    ensures FinOk(Do(e, a), i) && HandFull(Do(e, a).hand)
  {
    FinStep(e, a, i);
  }

  predicate BothFinOk(t: Tunnel, i: Id) {
    FinOk(t.c, i) && HandFull(t.c.hand) && FinOk(t.s, i) && HandFull(t.s.hand)
  }

  lemma FinNext(t: Tunnel, x: TunnelStep, i: Id)
    requires Inv(t) && MayHappen(t, x) && BothFinOk(t, i)
    ensures BothFinOk(Next(t, x), i)
  {
    ReadsAreOk(t, x);
    match x
    case AtClient(a) =>
      StepIsFresh(t.c, a);
      FinAt(t.c, a, i, t.s, t.downPos);
    case AtServer(a) =>
      StepIsFresh(t.s, a);
      FinAt(t.s, a, i, t.c, t.upPos);
    case _ =>
  }

  lemma {:induction false} AlwaysFinOk(run: seq<TunnelStep>, i: Id)
    requires Legal(run)
    ensures BothFinOk(After(run), i)
  {
    if |run| > 0 {
      var front := run[..|run| - 1];
      AlwaysFinOk(front, i);
      Always(front);
      FinNext(After(front), run[|run| - 1], i);
    }
  }

  /** In every run, kills, stalls and losses included: a local socket is FINed in one of two ways. Either every byte
      of every chunk the stream's channel ever accepted was written before, and no sender is left, not even the
      clone a reader holds while it delivers; or a write failed short of them. */
  lemma FinIsLastOrFailed(run: seq<TunnelStep>, client: bool, i: Id)
    requires Legal(run)
    ensures var e := End(After(run), client);
            Finned(e, i) ==> if Written(e, i) == Flat(Accepted(e, i)) then NobodySends(e, i)
                             else Written(e, i) < Flat(Accepted(e, i))
  {
    AlwaysFinOk(run, i);
    Always(run);
    WrittenWasSeen(End(After(run), client), i);
  }

  // ── a downlink's work runs out ─────────────────────────────────────────────

  /** What is left for a downlink to do before it FINs: a chunk costs its bytes, the taking and the last write. */
  function Waiting(chan: seq<seq<Byte>>): nat {
    if |chan| == 0 then 0 else |chan[0]| + 2 + Waiting(chan[1..])
  }

  function DownLeft(st: Stream): nat {
    match st.down
    case DownDone => 0
    case DownWriting(rest) => 1 + Waiting(st.chan) + |rest| + 1
    case _ => 1 + Waiting(st.chan)
  }

  lemma {:induction false} WaitingSnoc(chan: seq<seq<Byte>>, chunk: seq<Byte>)
    ensures Waiting(chan + [chunk]) == Waiting(chan) + |chunk| + 2
  {
    if |chan| > 0 {
      assert (chan + [chunk])[1..] == chan[1..] + [chunk];
      WaitingSnoc(chan[1..], chunk);
    }
  }

  predicate OfDownlink(a: Step, i: Id) {
    a.Pump? && a.p.i == i && (a.p.DownTake? || a.p.DownWrite? || a.p.DownFails? || a.p.DownEnds?)
  }

  predicate Delivers(e: Endpoint, a: Step, i: Id) {
    a == Reader(Handle) && e.hand.Delivering? && e.hand.id == i && i in e.streams && e.streams[i].rxOpen
  }

  lemma PumpUses(e: Endpoint, p: PumpStep, i: Id)
    requires PumpEnabled(e, p) && i in e.streams && PhaseOk(e.role, e.streams[i])
    ensures i in DoPump(e, p).streams
    ensures if OfDownlink(Pump(p), i) then DownLeft(DoPump(e, p).streams[i]) < DownLeft(e.streams[i])
            else DownLeft(DoPump(e, p).streams[i]) == DownLeft(e.streams[i])
  {
  }

  lemma TaskUses(e: Endpoint, k: TaskStep, i: Id)
    requires TaskEnabled(e, k) && i in e.streams && PhaseOk(e.role, e.streams[i]) && (k.Register? ==> k.i != i)
    ensures i in DoTask(e, k).streams && DownLeft(DoTask(e, k).streams[i]) == DownLeft(e.streams[i])
  {
  }

  lemma ReaderUses(e: Endpoint, r: ReaderStep, i: Id)
    requires ReaderEnabled(e, r) && i in e.streams && PhaseOk(e.role, e.streams[i]) && e.hand != Hand.Opening(i)
    ensures i in DoReader(e, r).streams
    ensures DownLeft(DoReader(e, r).streams[i])
            <= DownLeft(e.streams[i]) + if Delivers(e, Reader(r), i) then |e.hand.chunk| + 2 else 0
  {
    if Delivers(e, Reader(r), i) {
      WaitingSnoc(e.streams[i].chan, e.hand.chunk);
    }
  }

  lemma DownLeftOf(e: Endpoint, i: Id)
    requires Phases(e) && i in e.streams
    ensures PhaseOk(e.role, e.streams[i]) && (e.streams[i].fin <==> DownLeft(e.streams[i]) == 0)
    ensures e.hand != Hand.Opening(i)
  {
  }

  /** Every step of a downlink uses up some of what it has left, down to nothing at its FIN; nothing but a chunk
      delivered to its stream adds to it, and that by the length of the chunk and two. */
  lemma DownlinkUses(e: Endpoint, a: Step, i: Id)
    requires Phases(e) && Enabled(e, a) && Fresh(e, a) && i in e.streams
    ensures i in Do(e, a).streams
    ensures OfDownlink(a, i) ==> DownLeft(Do(e, a).streams[i]) < DownLeft(e.streams[i])
    ensures !OfDownlink(a, i) ==>
              DownLeft(Do(e, a).streams[i])
              <= DownLeft(e.streams[i]) + if Delivers(e, a, i) then |e.hand.chunk| + 2 else 0
    ensures e.streams[i].fin <==> DownLeft(e.streams[i]) == 0
  {
    DownLeftOf(e, i);
    match a
    case Task(k) => TaskUses(e, k, i);
    case Pump(p) => PumpUses(e, p, i);
    case Reader(r) => ReaderUses(e, r, i);
    case Wire(w) =>
    case Kill(s) =>
  }
}
