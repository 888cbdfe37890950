// What does happen: runs from the fresh connection to each cause of death, to a refused dial, a failed local
// write, a stalled stream, a lost record, an answered PING and an attempt that is given up.
module Happens {
  import opened Bytes
  import opened Mux
  import opened Endpoint
  import opened Death
  import opened Tunnel
  import opened Futures

  lemma RunOf(t: Tunnel) returns (run: seq<TunnelStep>)
    requires t in FutureOf([])
    ensures Run(run) == Some(t)
  {
    run :| Run([] + run) == Some(t);
    assert [] + run == run;
  }

  // ── every cause of death ───────────────────────────────────────────────────

  /** The end with one killer in another place. */
  function WithKiller(e: Endpoint, k: KillerId, x: Killer): Endpoint {
    e.(death := e.death.(killers := e.death.killers[k := x]))
  }

  lemma Starts(future: iset<Tunnel>, t: Tunnel, client: bool, k: KillerId, cause: DeathCause) returns (t': Tunnel)
    requires IsFuture(future) && t in future && MayStart(End(t, client), k, cause)
    requires k == KReader && cause == PeerClosed ==>
               && Pos(t, client) == End(t, !client).sent
               && HasReturned(End(t, !client), KReader) && HasReturned(End(t, !client), KWriter)
    ensures t' in future && PeerSame(t, t', client) && Pos(t', client) == Pos(t, client)
    ensures End(t', client)
            == WithKiller(End(t, client), k, Killer(cause, if k.KExternal? then AtCause else AtCheck, false))
  {
    t' := Goes(future, t, client, Kill(Start(k, cause)));
  }

  lemma Piece(future: iset<Tunnel>, t: Tunnel, client: bool, k: KillerId) returns (t': Tunnel)
    requires IsFuture(future) && t in future && Started(End(t, client), k) && !HasReturned(End(t, client), k)
    ensures t' in future && PeerSame(t, t', client) && Pos(t', client) == Pos(t, client)
    ensures End(t', client) == DoKill(End(t, client), KillStep.Advance(k))
  {
    t' := Goes(future, t, client, Kill(KillStep.Advance(k)));
  }

  /** Up to the cause slot: a loop logs first, unless there is a cause already. */
  lemma ReachesSlot(future: iset<Tunnel>, t: Tunnel, client: bool, k: KillerId) returns (t': Tunnel)
    requires IsFuture(future) && t in future && Started(End(t, client), k)
    requires !k.KExternal? && End(t, client).death.killers[k].pc == AtCheck && !End(t, client).death.killers[k].logged
    ensures t' in future && PeerSame(t, t', client) && Pos(t', client) == Pos(t, client)
    ensures var e := End(t, client);
            End(t', client)
            == WithKiller(e, k, Killer(e.death.killers[k].cause, AtCause, e.death.cause.None?))
  {
    t' := Piece(future, t, client, k);
    if End(t, client).death.cause.None? {
      t' := Piece(future, t', client, k);
    }
  }

  /** From the cause slot to the return: the first cause is kept, the flag set, the registry cleared. */
  lemma LeavesSlot(future: iset<Tunnel>, t: Tunnel, client: bool, k: KillerId) returns (t': Tunnel)
    requires IsFuture(future) && t in future && Started(End(t, client), k)
    requires End(t, client).death.killers[k].pc == AtCause
    ensures t' in future && PeerSame(t, t', client) && Pos(t', client) == Pos(t, client)
    ensures var d := End(t, client).death;
            End(t', client) == End(t, client).(reg := {},
              death := Death(true,
                             if d.cause.None? then Some(d.killers[k].cause) else d.cause,
                             if d.cause.None? then Some(k) else d.causedBy,
                             d.killers[k := d.killers[k].(pc := Returned)]))
  {
    t' := Piece(future, t, client, k);
    t' := Piece(future, t', client, k);
    t' := Piece(future, t', client, k);
  }

  /** Killer `k` runs from its start to its return on an end without a cause. */
  lemma Dies(future: iset<Tunnel>, t: Tunnel, client: bool, k: KillerId, cause: DeathCause) returns (t': Tunnel)
    requires IsFuture(future) && t in future && MayStart(End(t, client), k, cause)
    requires k == KReader && cause == PeerClosed ==>
               && Pos(t, client) == End(t, !client).sent
               && HasReturned(End(t, !client), KReader) && HasReturned(End(t, !client), KWriter)
    requires End(t, client).death.cause.None?
    ensures t' in future && PeerSame(t, t', client) && Pos(t', client) == Pos(t, client)
    ensures End(t', client)
            == End(t, client).(reg := {},
                               death := Death(true, Some(cause), Some(k),
                                 End(t, client).death.killers[k := Killer(cause, Returned, !k.KExternal?)]))
  {
    t' := Starts(future, t, client, k, cause);
    if !k.KExternal? {
      t' := ReachesSlot(future, t', client, k);
    }
    t' := LeavesSlot(future, t', client, k);
  }

  /** An idle peer is killed and both its loops get out. */
  lemma PeerLeaves(future: iset<Tunnel>, t: Tunnel, client: bool) returns (t': Tunnel)
    requires IsFuture(future) && t in future && End(t, client) == Init(if client then Client else Server)
    ensures t' in future && PeerSame(t, t', client) && Pos(t', client) == Pos(t, client)
    ensures HasReturned(End(t', client), KReader) && HasReturned(End(t', client), KWriter) && End(t', client).sent == 0
  {
    t' := Dies(future, t, client, KExternal(0), Killed);
    t' := LoopGetsOut(future, t', client, KReader);
    t' := LoopGetsOut(future, t', client, KWriter);
  }

  /** A loop that finds the flag set returns without logging anything. */
  lemma LoopGetsOut(future: iset<Tunnel>, t: Tunnel, client: bool, k: KillerId) returns (t': Tunnel)
    requires IsFuture(future) && t in future && MayStart(End(t, client), k, Killed) && !k.KExternal?
    requires End(t, client).death.dead && End(t, client).death.cause.Some? && End(t, client).reg == {}
    ensures t' in future && PeerSame(t, t', client) && Pos(t', client) == Pos(t, client)
    ensures End(t', client)
            == End(t, client).(death := End(t, client).death.(killers :=
                                 End(t, client).death.killers[k := Killer(Killed, Returned, false)]))
  {
    t' := Starts(future, t, client, k, Killed);
    t' := ReachesSlot(future, t', client, k);
    t' := LeavesSlot(future, t', client, k);
  }

  /** At either end any killer can be the one that ends the tunnel, with any cause that is its to give. */
  lemma EveryCauseHappens(client: bool, k: KillerId, cause: DeathCause) returns (run: seq<TunnelStep>)
    requires MayCause(k, cause) && (cause == Killed ==> k.KExternal?)
    ensures Legal(run)
    ensures End(After(run), client)
            == Init(if client then Client else Server).(
                 death := Death(true, Some(cause), Some(k), map[k := Killer(cause, Returned, !k.KExternal?)]))
  {
    var future := FutureOf([]);
    FutureOfRun([]);
    var t := START;
    if cause == PeerClosed {
      t := PeerLeaves(future, t, !client);
    }
    t := Dies(future, t, client, k, cause);
    run := RunOf(t);
  }

  // ── what becomes of one stream ─────────────────────────────────────────────

  /** The client has one stream, pump running and nothing read from its socket or left to write to the wire. */
  predicate ClientIdles(e: Endpoint) {
    && e.death == Init(Client).death && e.hand == Idle && e.taken == e.sent == |e.enq|
    && 1 in e.reg && 1 in e.streams && e.streams[1].task == Pumping && e.streams[1].up == UpReading
    && e.streams[1].down == DownRecv && e.streams[1].chan == [] && e.streams[1].rxOpen && !e.streams[1].cut
  }

  /** A writer with nothing in hand writes the next frame. */
  lemma GoesOut(future: iset<Tunnel>, t: Tunnel, client: bool) returns (t': Tunnel)
    requires IsFuture(future) && t in future && !Started(End(t, client), KWriter)
    requires End(t, client).taken == End(t, client).sent < |End(t, client).enq|
    ensures t' in future && PeerSame(t, t', client) && Pos(t', client) == Pos(t, client)
    ensures End(t', client)
            == End(t, client).(taken := End(t, client).taken + 1, sent := End(t, client).taken + 1)
  {
    t' := Wires(future, t, client, Take);
    t' := Wires(future, t', client, Write);
  }

  /** The OPEN has arrived: the entry exists before the dial is over. */
  lemma OpenArrives(future: iset<Tunnel>) returns (t: Tunnel)
    requires IsFuture(future) && START in future
    ensures t in future && ClientIdles(t.c) && t.upPos == 1 == t.c.sent && t.downPos == 0 && NobodyHurt(t)
    ensures t.s == Init(Server).(seen := [Open(1)], streams := map[1 := NewStream(TaskPc.Dialing)], reg := {1})
  {
    t := StreamOpens(future);
    t := GoesOut(future, t, true);
    t := Reads(future, t, false);
    t := Handles(future, t, false);
  }

  /** The server's one frame reaches the client. */
  lemma CloseArrives(future: iset<Tunnel>, t: Tunnel) returns (t': Tunnel)
    requires IsFuture(future) && t in future && t.s.enq == [Mux.Close(1)] && t.s.sent == 0 && t.downPos == 0
    requires t.s.death.killers == map[] && t.c.hand == Idle && t.c.death.killers == map[]
    ensures t' in future && t'.c == t.c.(seen := t.c.seen + [Mux.Close(1)], reg := t.c.reg - {1})
    ensures t'.s.reg == t.s.reg && t'.s.streams == t.s.streams && t'.s.enq == t.s.enq && t'.s.hurt == t.s.hurt
  {
    t' := NextIsSent(future, t, false);
    t' := Reads(future, t', true);
    t' := Handles(future, t', true);
  }

  lemma DialFailsBehindOpen(future: iset<Tunnel>) returns (t: Tunnel)
    requires IsFuture(future) && START in future
    ensures t in future && ClientIdles(t.c) && t.downPos == 0 && t.s.sent == 0 && t.s.death.killers == map[]
    ensures t.s.reg == {} && t.s.enq == [Mux.Close(1)] && t.s.hurt == {1}
    ensures t.s.streams == map[1 := NewStream(Refused).(rxOpen := false)]
  {
    t := OpenArrives(future);
    t := Tasks(future, t, false, DialFails(1));
    t := Tasks(future, t, false, Unregister(1));
    t := Tasks(future, t, false, Refuse(1));
  }

  /** A refused dial takes the entry away at both ends. */
  lemma DialIsRefused() returns (run: seq<TunnelStep>)
    ensures Legal(run)
    ensures var t := After(run);
            && t.s.reg == {} && t.s.enq == [Mux.Close(1)] && t.s.hurt == {1} && 1 in t.s.streams
            && t.s.streams[1].task == Refused && !t.s.streams[1].rxOpen
            && 1 in t.c.streams && t.c.streams[1].task == Pumping && 1 !in t.c.reg
  {
    var future := FutureOf([]);
    FutureOfRun([]);
    var t := DialFailsBehindOpen(future);
    t := CloseArrives(future, t);
    run := RunOf(t);
  }

  // ── chunks that find no taker ──────────────────────────────────────────────

  /** The server's reader waits for a frame, its stream 1 is registered and open, and it has sent nothing. */
  predicate ServerIdles(e: Endpoint) {
    && e.death == Init(Server).death && e.hand == Idle && e.enq == [] && e.taken == e.sent == 0
    && 1 in e.reg && 1 in e.streams && e.streams[1].rxOpen
  }

  lemma ByteIsSent(future: iset<Tunnel>, t: Tunnel) returns (t': Tunnel)
    requires IsFuture(future) && t in future && ClientIdles(t.c)
    ensures t' in future && ClientIdles(t'.c) && t'.c.enq == t.c.enq + [Data(1, [0])] && PeerSame(t, t', true)
    ensures Pos(t', true) == Pos(t, true)
  {
    assert NextChunk([0]) == [0];
    t' := Pumps(future, t, true, UpRead(1, [0]));
    t' := Pumps(future, t', true, UpSend(1));
    t' := GoesOut(future, t', true);
  }

  /** The client reads one byte and the server's reader gets it. */
  lemma ByteArrives(future: iset<Tunnel>, t: Tunnel) returns (t': Tunnel)
    requires IsFuture(future) && t in future && ClientIdles(t.c) && t.upPos == t.c.sent
    requires t.s.hand == Idle && t.s.death.killers == map[]
    ensures t' in future && ClientIdles(t'.c) && t'.upPos == t'.c.sent && t'.downPos == t.downPos
    ensures t'.s == t.s.(seen := t.s.seen + [Data(1, [0])], hand := Looking(1, [0]))
  {
    var u := ByteIsSent(future, t);
    assert u.c.enq[u.upPos] == Data(1, [0]);
    t' := Reads(future, u, false);
  }

  /** It is appended to a channel that has room, and nothing else happens. */
  lemma ByteWaits(future: iset<Tunnel>, t: Tunnel) returns (t': Tunnel)
    requires IsFuture(future) && t in future && ClientIdles(t.c) && t.upPos == t.c.sent
    requires ServerIdles(t.s) && |t.s.streams[1].chan| < 64
    ensures t' in future && ClientIdles(t'.c) && t'.upPos == t'.c.sent && t'.downPos == t.downPos
    ensures ServerIdles(t'.s) && t'.s.reg == t.s.reg && t'.s.hurt == t.s.hurt
    ensures t'.s.streams[1] == t.s.streams[1].(chan := t.s.streams[1].chan + [[0]], acc := t.s.streams[1].acc + [[0]])
  {
    t' := ByteArrives(future, t);
    t' := Handles(future, t', false);
    t' := Handles(future, t', false);
  }

  lemma {:induction false} ChannelFills(future: iset<Tunnel>, t: Tunnel) returns (t': Tunnel)
    requires IsFuture(future) && t in future && ClientIdles(t.c) && t.upPos == t.c.sent
    requires ServerIdles(t.s) && |t.s.streams[1].chan| <= 64
    ensures t' in future && ClientIdles(t'.c) && t'.upPos == t'.c.sent && t'.downPos == t.downPos
    ensures ServerIdles(t'.s) && t'.s.reg == t.s.reg && t'.s.hurt == t.s.hurt && |t'.s.streams[1].chan| == 64
    decreases 64 - |t.s.streams[1].chan|
  {
    if |t.s.streams[1].chan| == 64 {
      t' := t;
    } else {
      var u := ByteWaits(future, t);
      t' := ChannelFills(future, u);
    }
  }

  /** The reader waits for a full channel, gives up, drops the entry and answers CLOSE. */
  lemma ByteTimesOut(future: iset<Tunnel>, t: Tunnel) returns (t': Tunnel)
    requires IsFuture(future) && t in future && ClientIdles(t.c) && t.upPos == t.c.sent
    requires ServerIdles(t.s) && |t.s.streams[1].chan| == 64
    ensures t' in future && ClientIdles(t'.c) && t'.s.hand == Idle && t'.s.enq == [Mux.Close(1)]
    ensures t'.s.reg == t.s.reg - {1} && t'.s.hurt == t.s.hurt + {1} && t'.s.streams == t.s.streams
  {
    t' := ByteArrives(future, t);
    t' := Handles(future, t', false);
    t' := TimesOut(future, t', false);
    t' := Handles(future, t', false);
    t' := Handles(future, t', false);
  }

  /** While the server still dials, 64 chunks are kept; the next one hurts the stream, and only it. */
  lemma StreamStalls() returns (run: seq<TunnelStep>)
    ensures Legal(run)
    ensures var t := After(run);
            && t.s.reg == {} && t.s.enq == [Mux.Close(1)] && t.s.hurt == {1} && 1 in t.s.streams
            && |t.s.streams[1].chan| == 64 && t.s.streams[1].rxOpen && t.s.hand == Idle
            && t.c.death.cause.None? && 1 in t.c.reg
  {
    var future := FutureOf([]);
    FutureOfRun([]);
    var t := OpenArrives(future);
    t := ChannelFills(future, t);
    t := ByteTimesOut(future, t);
    run := RunOf(t);
  }

  /** The server takes its one chunk and cannot write it. */
  lemma ChunkCannotBeWritten(future: iset<Tunnel>, t: Tunnel) returns (t': Tunnel)
    requires IsFuture(future) && t in future && ServerIdles(t.s) && |t.s.streams[1].chan| == 1
    requires t.s.streams[1].task == TaskPc.Dialing
    ensures t' in future && t'.c == t.c && t'.upPos == t.upPos && t'.downPos == t.downPos
    ensures t'.s == t.s.(streams := t'.s.streams, hurt := t.s.hurt + {1}) && 1 in t'.s.streams
    ensures t'.s.streams[1] == t.s.streams[1].(task := Pumping, up := UpReading, down := DownDone, chan := [],
                                               rxOpen := false, fin := true)
  {
    t' := Tasks(future, t, false, Spawn(1));
    t' := Pumps(future, t', false, DownTake(1));
    t' := Pumps(future, t', false, DownFails(1));
  }

  /** The next chunk finds the channel closed: it is answered CLOSE, and the entry stays for the peer's CLOSE. */
  lemma ByteIsRefused(future: iset<Tunnel>, t: Tunnel) returns (t': Tunnel)
    requires IsFuture(future) && t in future && ClientIdles(t.c) && t.upPos == t.c.sent
    requires t.s.death == Init(Server).death && t.s.hand == Idle && t.s.enq == [] && t.s.taken == 0
    requires 1 in t.s.reg && 1 in t.s.streams && !t.s.streams[1].rxOpen
    ensures t' in future && t'.s.hand == Idle && t'.s.enq == [Mux.Close(1)]
    ensures t'.s.reg == t.s.reg && t'.s.hurt == t.s.hurt && t'.s.streams == t.s.streams
  {
    t' := ByteArrives(future, t);
    t' := Handles(future, t', false);
    t' := Handles(future, t', false);
    t' := Handles(future, t', false);
  }

  /** A failed local write FINs the socket, drops the receiver, and hurts that stream. */
  lemma WriteFails() returns (run: seq<TunnelStep>)
    ensures Legal(run)
    ensures var t := After(run);
            && t.s.hurt == {1} && t.s.enq == [Mux.Close(1)] && t.s.reg == {1} && 1 in t.s.streams
            && t.s.streams[1].fin && !t.s.streams[1].rxOpen && t.s.streams[1].written == []
            && t.s.streams[1].up == UpReading
  {
    var future := FutureOf([]);
    FutureOfRun([]);
    var t := OpenArrives(future);
    t := ByteWaits(future, t);
    t := ChunkCannotBeWritten(future, t);
    t := ByteIsRefused(future, t);
    run := RunOf(t);
  }

  // ── PINGs, and attempts that are given up ──────────────────────────────────

  /** A PING goes there and its PONG comes back. */
  lemma PingIsAnswered(client: bool, nonce: Nonce) returns (run: seq<TunnelStep>)
    ensures Legal(run)
    ensures var e, peer := End(After(run), client), End(After(run), !client);
            && e.enq == [Ping(nonce)] == peer.seen && peer.enq == [Pong(nonce)] == e.seen
            && e.pongs == 1 && peer.pongs == 0 && e.hand == Idle
  {
    var future := FutureOf([]);
    FutureOfRun([]);
    var t := PingArrives(future, client, nonce);
    t := PongComesBack(future, t, client, nonce);
    run := RunOf(t);
  }

  lemma PingArrives(future: iset<Tunnel>, client: bool, nonce: Nonce) returns (t: Tunnel)
    requires IsFuture(future) && START in future
    ensures t in future && Alive(t) && Pos(t, client) == 0
    ensures End(t, client) == Init(if client then Client else Server).(enq := [Ping(nonce)], taken := 1, sent := 1)
    ensures End(t, !client) == Init(if client then Server else Client).(seen := [Ping(nonce)], enq := [Pong(nonce)])
  {
    t := Wires(future, START, client, SendPing(nonce));
    t := GoesOut(future, t, client);
    t := Reads(future, t, !client);
    t := Handles(future, t, !client);
  }

  lemma PongComesBack(future: iset<Tunnel>, t: Tunnel, client: bool, nonce: Nonce) returns (t': Tunnel)
    requires IsFuture(future) && t in future && Alive(t) && End(t, client).hand == Idle && Pos(t, client) == 0
    requires End(t, !client).enq == [Pong(nonce)] && End(t, !client).taken == End(t, !client).sent == 0
    ensures t' in future
    ensures End(t', client) == End(t, client).(seen := End(t, client).seen + [Pong(nonce)],
                                               pongs := End(t, client).pongs + 1)
    ensures End(t', !client) == End(t, !client).(taken := 1, sent := 1)
  {
    t' := GoesOut(future, t, !client);
    t' := Reads(future, t', client);
    t' := Handles(future, t', client);
  }

  /** A record may get lost, and nobody notices but the flag of the model. */
  lemma OpenIsLost() returns (run: seq<TunnelStep>)
    ensures Legal(run)
    ensures var t := After(run);
            t.c.enq == [Open(1)] && t.upPos == 1 && !t.upLossless && t.downLossless && t.s == Init(Server)
  {
    var future := FutureOf([]);
    FutureOfRun([]);
    var t := StreamOpens(future);
    t := GoesOut(future, t, true);
    assert Next(t, LoseUp) in future;
    run := RunOf(Next(t, LoseUp));
  }

  /** A client whose first attempt has its entry, and then its OPEN out. */
  function OneEntry(): Endpoint {
    Init(Client).(allocs := 1, reg := {1}, streams := map[1 := NewStream(Registered)])
  }

  lemma EntryIsIn(future: iset<Tunnel>) returns (t: Tunnel)
    requires IsFuture(future) && START in future
    ensures t in future && t.c == OneEntry()
  {
    t := Tasks(future, START, true, Alloc);
    t := Tasks(future, t, true, Register(1));
    assert {} + {1} - {1} == {};
  }

  lemma OpenIsOut(future: iset<Tunnel>) returns (t: Tunnel)
    requires IsFuture(future) && START in future
    ensures t in future && t.c == OneEntry().(enq := [Open(1)], streams := map[1 := NewStream(Opened)])
  {
    t := EntryIsIn(future);
    t := Tasks(future, t, true, SendOpen(1));
  }

  /** The client's tunnel is killed between its OPEN and its look at the flag: no pump, and no receiver. */
  lemma AttemptIsGivenUp() returns (run: seq<TunnelStep>)
    ensures Legal(run)
    ensures var e := After(run).c;
            && e.enq == [Open(1)] && e.reg == {} && e.death.dead && e.allocs == 1
            && e.streams == map[1 := NewStream(Abandoned).(rxOpen := false)]
  {
    var future := FutureOf([]);
    FutureOfRun([]);
    var t := OpenIsOut(future);
    t := Dies(future, t, true, KExternal(0), Killed);
    t := Tasks(future, t, true, CheckDead(1));
    run := RunOf(t);
  }

  /** Killed before its OPEN, with the writer gone, it fails to enqueue it. */
  lemma OpenIsRefused() returns (run: seq<TunnelStep>)
    ensures Legal(run)
    ensures var e := After(run).c;
            && e.enq == [] && e.reg == {} && e.death.dead && e.allocs == 1
            && e.streams == map[1 := NewStream(Abandoned).(rxOpen := false)]
  {
    var future := FutureOf([]);
    FutureOfRun([]);
    var t := EntryIsIn(future);
    t := Dies(future, t, true, KExternal(0), Killed);
    t := LoopGetsOut(future, t, true, KWriter);
    t := Tasks(future, t, true, SendOpen(1));
    run := RunOf(t);
  }

  /** A writer on its way out still holds the channel: an OPEN goes in behind its back and will never leave, and only
      the second look at the flag notices. */
  lemma OpenBehindDyingWriter() returns (run: seq<TunnelStep>)
    ensures Legal(run)
    ensures var e := After(run).c;
            && e.enq == [Open(1)] && e.taken == 0 && e.death.dead && e.death.cause == Some(WriteError)
            && KWriter in e.death.killers && e.death.killers[KWriter].pc == AtClear
            && e.reg == {1} && e.streams == map[1 := NewStream(Abandoned).(rxOpen := false)]
  {
    var future := FutureOf([]);
    FutureOfRun([]);
    var t := EntryIsIn(future);
    t := WriterFails(future, t);
    t := Tasks(future, t, true, SendOpen(1));
    t := Tasks(future, t, true, CheckDead(1));
    run := RunOf(t);
  }

  /** The client's writer has set the flag and not yet cleared the registry. */
  lemma WriterFails(future: iset<Tunnel>, t: Tunnel) returns (t': Tunnel)
    requires IsFuture(future) && t in future && t.c.death == Init(Client).death
    ensures t' in future
    ensures t'.c == t.c.(death := Death(true, Some(WriteError), Some(KWriter),
                                        map[KWriter := Killer(WriteError, AtClear, true)]))
  {
    t' := Starts(future, t, true, KWriter, WriteError);
    t' := ReachesSlot(future, t', true, KWriter);
    t' := Piece(future, t', true, KWriter);
    t' := Piece(future, t', true, KWriter);
  }

  /** A running pump on a tunnel that dies: the uplink is cut and the downlink FINs. */
  lemma PumpIsCut() returns (run: seq<TunnelStep>)
    ensures Legal(run)
    ensures var e := After(run).c;
            && e.enq == [Open(1)] && e.reg == {} && e.death.dead && 1 in e.streams
            && e.streams[1] == NewStream(Pumping).(up := UpDone, cut := true, read := [0], down := DownDone,
                                                   fin := true, rxOpen := false)
  {
    var future := FutureOf([]);
    FutureOfRun([]);
    var t := StreamOpens(future);
    t := Dies(future, t, true, KExternal(0), Killed);
    t := LoopGetsOut(future, t, true, KWriter);
    t := PumpEnds(future, t);
    run := RunOf(t);
  }

  lemma PumpEnds(future: iset<Tunnel>, t: Tunnel) returns (t': Tunnel)
    requires IsFuture(future) && t in future && WriterGone(t.c) && t.c.reg == {} && t.c.hand == Idle
    requires 1 in t.c.streams && t.c.streams[1] == NewStream(Pumping).(up := UpReading, down := DownRecv)
    ensures t' in future && t'.c == t.c.(streams := t'.c.streams) && 1 in t'.c.streams
    ensures t'.c.streams[1] == NewStream(Pumping).(up := UpDone, cut := true, read := [0], down := DownDone,
                                                   fin := true, rxOpen := false)
  {
    t' := Pumps(future, t, true, UpRead(1, [0]));
    t' := Pumps(future, t', true, UpSend(1));
    t' := Pumps(future, t', true, UpClose(1));
    t' := Pumps(future, t', true, DownEnds(1));
  }
}
