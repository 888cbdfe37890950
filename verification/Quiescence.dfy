// PONGs and echoed CLOSEs never set off a ping-pong: once nobody else produces frames, a measure of what is
// in flight goes down with every step of a reader or a writer, and it reaches zero.
module Quiescence {
  import opened Bytes
  import opened Mux
  import opened Endpoint
  import opened Bookkeeping
  import opened Tunnel
  import T = Tunnel

  /** What a frame on the wire can still cause: being read, handled, and answered. */
  function Weight(f: Frame): nat {
    match f
    case Data(_, _) => 9
    case Ping(_) => 6
    case _ => 2
  }

  function TotalWeight(fs: seq<Frame>): nat {
    if |fs| == 0 then 0 else TotalWeight(fs[..|fs| - 1]) + Weight(fs[|fs| - 1])
  }

  function HandWeight(h: Hand): nat {
    match h
    case Idle => 0
    case Opening(_) => 1
    case Closing(_) => 1
    case Counting => 1
    case Ponging(_) => 5
    case Echoing(_) => 5
    case Stalled(_) => 6
    case Delivering(_, _) => 7
    case Looking(_, _) => 8
  }

  /** Frames of one sender from the frame channel to the far end of the wire. */
  function InFlight(e: Endpoint, pos: nat): nat
    requires Cursors(e) && pos <= e.sent
  {
    TotalWeight(e.enq[pos..]) + (|e.enq| - e.taken) + (|e.enq| - e.sent)
  }

  predicate Sane(t: Tunnel) {
    Cursors(t.c) && Cursors(t.s) && t.upPos <= t.c.sent && t.downPos <= t.s.sent
  }

  function Measure(t: Tunnel): nat
    requires Sane(t)
  {
    InFlight(t.c, t.upPos) + HandWeight(t.s.hand) + InFlight(t.s, t.downPos) + HandWeight(t.c.hand)
  }

  /** Steps by which tasks, uplinks and the keepalive put new frames on the tunnel. */
  predicate Producing(a: Step) {
    || (a.Task? && (a.t.SendOpen? || a.t.Refuse?))
    || (a.Pump? && (a.p.UpSend? || a.p.UpClose?))
    || (a.Wire? && a.w.SendPing?)
  }

  predicate Quiet(x: TunnelStep) {
    x.AtClient? || x.AtServer? ==> !Producing(x.a)
  }

  /** Steps of the readers, the writers and the wire. */
  predicate MovesFrames(x: TunnelStep) {
    x.AtClient? || x.AtServer? ==> x.a.Reader? || x.a.Wire?
  }

  lemma TotalWeightSnoc(fs: seq<Frame>, f: Frame)
    ensures TotalWeight(fs + [f]) == TotalWeight(fs) + Weight(f)
  {
    assert (fs + [f])[..|fs|] == fs;
  }

  lemma {:induction false} TotalWeightCons(fs: seq<Frame>)
    requires |fs| > 0
    ensures TotalWeight(fs) == Weight(fs[0]) + TotalWeight(fs[1..])
  {
    if |fs| > 1 {
      TotalWeightCons(fs[..|fs| - 1]);
      assert fs[1..][..|fs[1..]| - 1] == fs[..|fs| - 1][1..];
    } else {
      assert fs == [] + [fs[0]];
      TotalWeightSnoc([], fs[0]);
    }
  }

  lemma EnqueueWeight(enq: seq<Frame>, pos: nat, f: Frame)
    requires pos <= |enq|
    ensures TotalWeight((enq + [f])[pos..]) == TotalWeight(enq[pos..]) + Weight(f)
  {
    TotalWeightSnoc(enq[pos..], f);
    assert (enq + [f])[pos..] == enq[pos..] + [f];
  }

  lemma HandleWeight(e: Endpoint, pos: nat)
    requires HandEnabled(e) && Cursors(e) && pos <= e.sent
    ensures Cursors(DoHand(e))
    ensures InFlight(DoHand(e), pos) + HandWeight(NextHand(e)) < InFlight(e, pos) + HandWeight(e.hand)
  {
    if e.hand.Echoing? {
      EnqueueWeight(e.enq, pos, Mux.Close(e.hand.id));
    } else if e.hand.Ponging? {
      EnqueueWeight(e.enq, pos, Pong(e.hand.nonce));
    }
  }

  /** Steps that leave the frames and the reader alone. */
  predicate Untouched(e: Endpoint, e': Endpoint) {
    e'.enq == e.enq && e'.taken == e.taken && e'.sent == e.sent && e'.hand == e.hand
  }

  lemma OtherSteps(e: Endpoint, a: Step)
    requires Enabled(e, a) && !Producing(a) && !a.Reader? && !a.Wire?
    ensures Untouched(e, Do(e, a))
  {
  }

  lemma WriterWeight(e: Endpoint, w: WireStep, pos: nat)
    requires WireEnabled(e, w) && !w.SendPing? && Cursors(e) && pos <= e.sent
    ensures Cursors(DoWire(e, w))
    ensures InFlight(DoWire(e, w), pos) < InFlight(e, pos) && DoWire(e, w).hand == e.hand
  {
  }

  /** What one endpoint's step does to its own frames and its own hand, before the wire moves. */
  lemma StepWeight(e: Endpoint, a: Step, pos: nat)
    requires Enabled(e, a) && Cursors(e) && pos <= e.sent && !Producing(a)
    requires !(a.Reader? && a.r.Read?)
    ensures Cursors(Do(e, a)) && pos <= Do(e, a).sent
    ensures var before := InFlight(e, pos) + HandWeight(e.hand);
            var after := InFlight(Do(e, a), pos) + HandWeight(Do(e, a).hand);
            if a.Reader? || a.Wire? then after < before else after == before
  {
    match a
    case Reader(r) => if r.Handle? { HandleWeight(e, pos); }
    case Wire(w) => WriterWeight(e, w, pos);
    case _ => OtherSteps(e, a);
  }

  /** A record leaves the wire; if it is read, the hand it starts weighs less than it did. */
  lemma ReadWeight(sender: Endpoint, pos: nat)
    requires Cursors(sender) && pos < sender.sent
    ensures InFlight(sender, pos + 1) + HandWeight(HandFor(sender.enq[pos])) < InFlight(sender, pos)
  {
    TotalWeightCons(sender.enq[pos..]);
    assert sender.enq[pos..][1..] == sender.enq[pos + 1..];
  }

  lemma QuietStep(t: Tunnel, x: TunnelStep)
    requires Sane(t) && MayHappen(t, x) && Sane(Next(t, x)) && Quiet(x)
    ensures if MovesFrames(x) then Measure(Next(t, x)) < Measure(t) else Measure(Next(t, x)) == Measure(t)
  {
    match x
    case LoseUp => ReadWeight(t.c, t.upPos);
    case LoseDown => ReadWeight(t.s, t.downPos);
    case AtClient(a) => EndWeight(t.c, a, t.upPos, t.s, t.downPos);
    case AtServer(a) => EndWeight(t.s, a, t.downPos, t.c, t.upPos);
  }

  /** One end's step against its own frames and those of its peer. */
  lemma EndWeight(e: Endpoint, a: Step, outPos: nat, peer: Endpoint, inPos: nat)
    requires Enabled(e, a) && WireAllows(a, peer, inPos) && !Producing(a)
    requires Cursors(e) && Cursors(Do(e, a)) && outPos <= e.sent && outPos <= Do(e, a).sent
    requires Cursors(peer) && inPos <= peer.sent && inPos + T.Advance(a) <= peer.sent
    ensures var before := InFlight(e, outPos) + HandWeight(e.hand) + InFlight(peer, inPos);
            var after := InFlight(Do(e, a), outPos) + HandWeight(Do(e, a).hand) + InFlight(peer, inPos + T.Advance(a));
            if a.Reader? || a.Wire? then after < before else after == before
  {
    if a.Reader? && a.r.Read? {
      ReadWeight(peer, inPos);
    } else {
      StepWeight(e, a, outPos);
    }
  }

  function FrameMoves(run: seq<TunnelStep>): nat {
    if |run| == 0 then 0
    else FrameMoves(run[..|run| - 1]) + (if MovesFrames(run[|run| - 1]) then 1 else 0)
  }

  lemma AlwaysSane(run: seq<TunnelStep>)
    requires Legal(run)
    ensures Sane(After(run))
  {
    Always(run);
  }

  /** Replies quiesce: after any run, however the tunnel goes on without new production, its readers and
      writers take at most `Measure` more steps between them. */
  lemma {:induction false} RepliesQuiesce(run: seq<TunnelStep>, more: seq<TunnelStep>)
    requires Legal(run) && Legal(run + more) && forall k :: 0 <= k < |more| ==> Quiet(more[k])
    ensures Sane(After(run)) && Sane(After(run + more))
    ensures FrameMoves(more) + Measure(After(run + more)) <= Measure(After(run))
  {
    AlwaysSane(run);
    AlwaysSane(run + more);
    if |more| == 0 {
      assert run + more == run;
    } else {
      var front := more[..|more| - 1];
      assert (run + more)[..|run + more| - 1] == run + front;
      RepliesQuiesce(run, front);
      QuietStep(After(run + front), more[|more| - 1]);
    }
  }

  /** A reader or a writer takes a step on a frame there is; nothing is lost and nothing new produced. */
  predicate Works(x: TunnelStep) {
    (x.AtClient? || x.AtServer?) && MovesFrames(x) && Quiet(x)
  }

  /** A blocked hand waits for its own writer, and that writer can move; nothing else blocks a hand. */
  lemma HandMoves(e: Endpoint) returns (a: Step)
    requires Cursors(e) && Phases(e) && e.death.killers == map[] && e.hand != Idle
    ensures Enabled(e, a) && !Producing(a) && (a.Reader? || a.Wire?) && !(a.Reader? && a.r.Read?)
  {
    if HandEnabled(e) {
      a := Reader(Handle);
    } else if e.hand.Delivering? {
      a := Reader(Timeout);
    } else if e.taken == e.sent {
      a := Wire(Take);
    } else {
      a := Wire(Write);
    }
  }

  /** As long as anything is in flight between two live ends, some reader or writer can take a step: the
      dispatch of one stream never blocks the tunnel for good. */
  lemma SomethingMoves(run: seq<TunnelStep>) returns (x: TunnelStep)
    requires Legal(run) && Alive(After(run)) && Sane(After(run)) && Measure(After(run)) > 0
    ensures MayHappen(After(run), x) && Works(x)
  {
    Always(run);
    var t := After(run);
    if t.c.hand != Idle {
      var a := HandMoves(t.c);
      x := AtClient(a);
    } else if t.s.hand != Idle {
      var a := HandMoves(t.s);
      x := AtServer(a);
    } else if t.upPos < t.c.sent {
      x := AtServer(Reader(Read(t.c.enq[t.upPos])));
    } else if t.downPos < t.s.sent {
      x := AtClient(Reader(Read(t.s.enq[t.downPos])));
    } else if t.c.sent < |t.c.enq| {
      x := AtClient(Wire(if t.c.taken == t.c.sent then Take else Write));
    } else {
      assert t.c.enq[t.upPos..] == [];
      x := AtServer(Wire(if t.s.taken == t.s.sent then Take else Write));
    }
  }

  // ── the frames run out ─────────────────────────────────────────────────────

  predicate AllWork(more: seq<TunnelStep>) {
    forall k :: 0 <= k < |more| ==> Works(more[k])
  }

  lemma DrainStep(run: seq<TunnelStep>, t: Tunnel) returns (x: TunnelStep, t': Tunnel)
    requires Run(run) == Some(t) && Alive(t) && Sane(t) && Measure(t) > 0
    ensures Run(run + [x]) == Some(t') && Works(x)
    ensures Alive(t') && Sane(t') && Measure(t') < Measure(t)
  {
    x := SomethingMoves(run);
    t' := Next(t, x);
    assert (run + [x])[..|run|] == run;
    AlwaysSane(run + [x]);
    QuietStep(t, x);
    StaysAlive(t, x);
  }

  lemma StaysAlive(t: Tunnel, x: TunnelStep)
    requires MayHappen(t, x) && MovesFrames(x) && Alive(t)
    ensures Alive(Next(t, x))
  {
  }

  /** Both frame queues, both wires and both hands are empty. */
  predicate NothingInFlight(t: Tunnel) {
    && t.upPos == t.c.sent == t.c.taken == |t.c.enq| && t.downPos == t.s.sent == t.s.taken == |t.s.enq|
    && t.c.hand == Idle && t.s.hand == Idle
  }

  /** That is what a measure of zero means. */
  lemma WeightlessIsEmpty(fs: seq<Frame>)
    ensures TotalWeight(fs) == 0 <==> fs == []
  {
  }

  lemma MeasureZero(t: Tunnel)
    requires Sane(t)
    ensures Measure(t) == 0 <==> NothingInFlight(t)
  {
    WeightlessIsEmpty(t.c.enq[t.upPos..]);
    WeightlessIsEmpty(t.s.enq[t.downPos..]);
  }

  /** Between two live ends whatever is in flight can be worked off by readers and writers alone, without losing
      a record or producing a new frame. */
  lemma {:induction false} FramesRunOut(run: seq<TunnelStep>, t: Tunnel) returns (more: seq<TunnelStep>, t': Tunnel)
    requires Run(run) == Some(t) && Alive(t) && Sane(t)
    ensures Run(run + more) == Some(t') && AllWork(more) && NothingInFlight(t')
    decreases Measure(t)
  {
    if Measure(t) == 0 {
      more, t' := [], t;
      assert run + more == run;
      MeasureZero(t);
    } else {
      var x, u := DrainStep(run, t);
      more, t' := FramesRunOut(run + [x], u);
      Assoc(run, [x], more);
      more := [x] + more;
    }
  }
}
