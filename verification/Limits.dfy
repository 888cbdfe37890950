// The bounds of the frame channel, the inbound channels and the socket reads in plain numbers, and what a
// reader that reports a closed peer has seen.
module Limits {
  import opened Mux
  import opened Endpoint
  import opened Bookkeeping
  import opened Tunnel
  import T = Tunnel
  import opened Futures

  // ── channels ───────────────────────────────────────────────────────────────

  predicate StreamBounds(st: Stream) {
    |st.chan| <= 64 && (st.up.UpSending? ==> 0 < |st.up.rest| <= 16384)
  }

  predicate Bounds(e: Endpoint) {
    e.taken <= |e.enq| <= e.taken + 256 && forall i :: i in e.streams ==> StreamBounds(e.streams[i])
  }

  lemma SentBounds(e: Endpoint, f: Frame)
    requires Bounds(e) && Ready(e)
    ensures e.taken <= |Sent(e, f)| <= e.taken + 256
  {
  }

  lemma TaskBounds(e: Endpoint, k: TaskStep)
    requires Bounds(e) && TaskEnabled(e, k)
    ensures Bounds(DoTask(e, k))
  {
    if k.SendOpen? { SentBounds(e, Open(k.i)); }
    if k.Refuse? { SentBounds(e, Mux.Close(k.i)); }
  }

  lemma PumpBounds(e: Endpoint, p: PumpStep)
    requires Bounds(e) && PumpEnabled(e, p)
    ensures Bounds(DoPump(e, p))
  {
    assert StreamBounds(e.streams[p.i]);
    if p.UpSend? { SentBounds(e, Data(p.i, NextChunk(e.streams[p.i].up.rest))); }
    if p.UpClose? { SentBounds(e, Mux.Close(p.i)); }
  }

  lemma HandBounds(e: Endpoint)
    requires Bounds(e) && HandEnabled(e)
    ensures Bounds(DoHand(e))
  {
    if e.hand.Echoing? { SentBounds(e, Mux.Close(e.hand.id)); }
    if e.hand.Ponging? { SentBounds(e, Pong(e.hand.nonce)); }
    if e.hand.Delivering? { assert StreamBounds(e.streams[e.hand.id]); }
  }

  lemma BoundsStep(e: Endpoint, a: Step)
    requires Bounds(e) && Enabled(e, a)
    ensures Bounds(Do(e, a))
  {
    match a
    case Task(k) => TaskBounds(e, k);
    case Pump(p) => PumpBounds(e, p);
    case Reader(r) => if r.Handle? { HandBounds(e); }
    case Wire(w) => if w.SendPing? { SentBounds(e, Ping(w.nonce)); }
    case Kill(s) =>
  }

  lemma {:induction false} AlwaysBounded(run: seq<TunnelStep>)
    requires Legal(run)
    ensures Bounds(After(run).c) && Bounds(After(run).s)
  {
    if |run| > 0 {
      var front, last := run[..|run| - 1], run[|run| - 1];
      AlwaysBounded(front);
      match last
      case AtClient(a) => BoundsStep(After(front).c, a);
      case AtServer(a) => BoundsStep(After(front).s, a);
      case _ =>
    }
  }

  /** At most 256 frames wait for the writer, and a sender waits exactly while 256 do; at most 64 chunks wait in
      an inbound channel, and the reader waits for an open one, and can time out, exactly while 64 do; a read
      from a local socket gives at most the 16384 bytes of one DATA frame. */
  lemma ChannelLimits(run: seq<TunnelStep>, client: bool, i: Id)
    requires Legal(run)
    ensures var e := End(After(run), client);
            && e.taken <= |e.enq| <= e.taken + 256
            && (!Ready(e) <==> |e.enq| == e.taken + 256 && !WriterGone(e))
            && (i in e.streams ==> |e.streams[i].chan| <= 64)
            && (i in e.streams && e.streams[i].up.UpSending? ==>
                  NextChunk(e.streams[i].up.rest) == e.streams[i].up.rest)
            && (e.hand.Delivering? && e.hand.id == i && i in e.streams ==>
                  && (ReaderEnabled(e, Timeout) <==> e.streams[i].rxOpen && |e.streams[i].chan| == 64)
                  && (HandEnabled(e) <==> !e.streams[i].rxOpen || |e.streams[i].chan| < 64))
  {
    AlwaysBounded(run);
    var e := End(After(run), client);
    assert i in e.streams ==> StreamBounds(e.streams[i]);
  }

  /** The next step of a stream's opening or refusal, and of its uplink: everything but a frame to be enqueued can be
      done at once. */
  predicate TaskMoves(e: Endpoint, i: Id, st: Stream) {
    match st.task
    case Registered => TaskEnabled(e, SendOpen(i)) <==> Ready(e)
    case Opened => TaskEnabled(e, CheckDead(i))
    case Checked => TaskEnabled(e, Spawn(i))
    case Dialing => TaskEnabled(e, Spawn(i)) && TaskEnabled(e, DialFails(i))
    case DialFailed => TaskEnabled(e, Unregister(i))
    case Unregistered => TaskEnabled(e, Refuse(i)) <==> Ready(e)
    case _ => true
  }

  ghost predicate UplinkMoves(e: Endpoint, i: Id, st: Stream) {
    match st.up
    case UpReading =>
      PumpEnabled(e, UpEof(i)) && forall bytes :: 0 < |bytes| <= 16384 ==> PumpEnabled(e, UpRead(i, bytes))
    case UpSending(_) => PumpEnabled(e, UpSend(i)) <==> Ready(e)
    case UpClosing => PumpEnabled(e, UpClose(i)) <==> Ready(e)
    case _ => st.up == UpDone || st.task != Pumping
  }

  lemma StreamMoves(e: Endpoint, i: Id)
    requires i in e.streams && PhaseOk(e.role, e.streams[i])
    ensures TaskMoves(e, i, e.streams[i]) && UplinkMoves(e, i, e.streams[i])
  {
  }

  /** Nothing but a full frame channel ever holds up a stream's opening or its uplink, and while the writer is there
      it makes room; a hand or a FIN elsewhere never stands in the way. */
  lemma OnlyRoomIsWaitedFor(run: seq<TunnelStep>, client: bool, i: Id)
    requires Legal(run)
    ensures var e := End(After(run), client);
            && (i in e.streams ==> TaskMoves(e, i, e.streams[i]) && UplinkMoves(e, i, e.streams[i]))
            && (!Ready(e) && !Started(e, KWriter) ==> WireEnabled(e, Take) || WireEnabled(e, Write))
            && (e.role == Client && e.allocs < 4294967296 ==> TaskEnabled(e, Alloc))
  {
    Always(run);
    AlwaysBounded(run);
    var e := End(After(run), client);
    if i in e.streams {
      PhasesHold(e, i);
      StreamMoves(e, i);
    }
  }

  lemma PhasesHold(e: Endpoint, i: Id)
    requires Book(e) && i in e.streams
    ensures PhaseOk(e.role, e.streams[i])
  {
  }

  // ── the end of the wire ────────────────────────────────────────────────────

  /** The reader stopped at a clean end of the wire. */
  predicate SawEnd(e: Endpoint) {
    KReader in e.death.killers && e.death.killers[KReader].cause == PeerClosed
  }

  predicate EndOk(e: Endpoint, pos: nat, peer: Endpoint) {
    SawEnd(e) ==> pos == peer.sent && HasReturned(peer, KReader) && HasReturned(peer, KWriter)
  }

  lemma EndOkReader(e: Endpoint, a: Step, pos: nat, peer: Endpoint)
    requires EndOk(e, pos, peer) && Enabled(e, a) && WireAllows(a, peer, pos)
    ensures EndOk(Do(e, a), pos + T.Advance(a), peer)
  {
  }

  lemma EndOkPeer(e: Endpoint, pos: nat, peer: Endpoint, a: Step)
    requires EndOk(e, pos, peer) && Enabled(peer, a)
    ensures EndOk(e, pos, Do(peer, a))
  {
  }

  predicate EndsSeen(t: Tunnel) {
    EndOk(t.c, t.downPos, t.s) && EndOk(t.s, t.upPos, t.c)
  }

  lemma EndsSeenNext(t: Tunnel, x: TunnelStep)
    requires EndsSeen(t) && MayHappen(t, x)
    ensures EndsSeen(Next(t, x))
  {
    match x
    case AtClient(a) =>
      EndOkReader(t.c, a, t.downPos, t.s);
      EndOkPeer(t.s, t.upPos, t.c, a);
    case AtServer(a) =>
      EndOkReader(t.s, a, t.upPos, t.c);
      EndOkPeer(t.c, t.downPos, t.s, a);
    case _ =>
  }

  lemma {:induction false} AlwaysEndsSeen(run: seq<TunnelStep>)
    requires Legal(run)
    ensures EndsSeen(After(run))
  {
    if |run| > 0 {
      AlwaysEndsSeen(run[..|run| - 1]);
      EndsSeenNext(After(run[..|run| - 1]), run[|run| - 1]);
    }
  }

  /** A reader that reports a closed peer has been given every record the peer ever wrote, the last one
      included: both loops of the peer are over, and without loss it has read all of them. */
  lemma ClosedPeerSaidAll(run: seq<TunnelStep>, client: bool)
    requires Legal(run) && SawEnd(End(After(run), client))
    ensures var t := After(run); var peer := End(t, !client);
            && Pos(t, client) == peer.sent <= |peer.enq| && HasReturned(peer, KReader) && HasReturned(peer, KWriter)
            && ((if client then t.downLossless else t.upLossless) ==> End(t, client).seen == peer.enq[..peer.sent])
  {
    AlwaysEndsSeen(run);
    Always(run);
  }
}
