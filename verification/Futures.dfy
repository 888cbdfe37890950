// What can still happen: the set of states some continuation of a run leads to, and the steps that bring one
// about. Everything is said of one end and its peer, whichever of the two is the client.
module Futures {
  import opened Bytes
  import opened Mux
  import opened History
  import opened Endpoint
  import opened Bookkeeping
  import opened Closing
  import opened Tunnel
  import T = Tunnel

  function End(t: Tunnel, client: bool): Endpoint {
    if client then t.c else t.s
  }

  /** How many records of its peer this end has been given. */
  function Pos(t: Tunnel, client: bool): nat {
    if client then t.downPos else t.upPos
  }

  function At(client: bool, a: Step): TunnelStep {
    if client then AtClient(a) else AtServer(a)
  }

  /** Closed under steps, and the invariant holds throughout. */
  ghost predicate IsFuture(future: iset<Tunnel>) {
    && (forall t: Tunnel, x: TunnelStep {:trigger Next(t, x)} ::
          t in future && MayHappen(t, x) ==> Next(t, x) in future)
    && (forall t: Tunnel {:trigger Inv(t)} :: t in future ==> Inv(t))
  }

  ghost function FutureOf(run: seq<TunnelStep>): iset<Tunnel> {
    iset t: Tunnel | exists more: seq<TunnelStep> :: Run(run + more) == Some(t)
  }

  lemma FutureOfRun(run: seq<TunnelStep>)
    requires Legal(run)
    ensures After(run) in FutureOf(run) && IsFuture(FutureOf(run))
  {
    assert run + [] == run;
    assert Run(run + []) == Some(After(run));
    forall t: Tunnel, x: TunnelStep | t in FutureOf(run) && MayHappen(t, x)
      ensures Next(t, x) in FutureOf(run)
    {
      var more: seq<TunnelStep> :| Run(run + more) == Some(t);
      OneMore(run + more, t, x);
      Assoc(run, more, [x]);
    }
    forall t: Tunnel | t in FutureOf(run)
      ensures Inv(t)
    {
      var more: seq<TunnelStep> :| Run(run + more) == Some(t);
      Always(run + more);
    }
  }

  lemma OneMore(run: seq<TunnelStep>, t: Tunnel, x: TunnelStep)
    requires Run(run) == Some(t) && MayHappen(t, x)
    ensures Run(run + [x]) == Some(Next(t, x))
  {
    assert (run + [x])[..|run|] == run;
  }

  // ── one step of one end ────────────────────────────────────────────────────

  /** Everything but this end and its reading position is as before. */
  predicate PeerSame(t: Tunnel, t': Tunnel, client: bool) {
    && End(t', !client) == End(t, !client) && Pos(t', !client) == Pos(t, !client)
    && t'.upLossless == t.upLossless && t'.downLossless == t.downLossless
  }

  lemma Goes(future: iset<Tunnel>, t: Tunnel, client: bool, a: Step) returns (t': Tunnel)
    requires IsFuture(future) && t in future
    requires Enabled(End(t, client), a) && WireAllows(a, End(t, !client), Pos(t, client))
    ensures t' in future && PeerSame(t, t', client)
    ensures End(t', client) == Do(End(t, client), a) && Pos(t', client) == Pos(t, client) + T.Advance(a)
  {
    t' := Next(t, At(client, a));
  }

  lemma Pumps(future: iset<Tunnel>, t: Tunnel, client: bool, p: PumpStep) returns (t': Tunnel)
    requires IsFuture(future) && t in future && PumpEnabled(End(t, client), p)
    ensures t' in future && PeerSame(t, t', client)
    ensures End(t', client) == DoPump(End(t, client), p) && Pos(t', client) == Pos(t, client)
  {
    t' := Goes(future, t, client, Pump(p));
  }

  lemma Tasks(future: iset<Tunnel>, t: Tunnel, client: bool, k: TaskStep) returns (t': Tunnel)
    requires IsFuture(future) && t in future && TaskEnabled(End(t, client), k)
    ensures t' in future && PeerSame(t, t', client)
    ensures End(t', client) == DoTask(End(t, client), k) && Pos(t', client) == Pos(t, client)
  {
    t' := Goes(future, t, client, Task(k));
  }

  lemma Wires(future: iset<Tunnel>, t: Tunnel, client: bool, w: WireStep) returns (t': Tunnel)
    requires IsFuture(future) && t in future && WireEnabled(End(t, client), w)
    ensures t' in future && PeerSame(t, t', client)
    ensures End(t', client) == DoWire(End(t, client), w) && Pos(t', client) == Pos(t, client)
  {
    t' := Goes(future, t, client, Wire(w));
  }

  lemma Handles(future: iset<Tunnel>, t: Tunnel, client: bool) returns (t': Tunnel)
    requires IsFuture(future) && t in future && HandEnabled(End(t, client))
    ensures t' in future && PeerSame(t, t', client)
    ensures End(t', client) == DoHand(End(t, client)) && Pos(t', client) == Pos(t, client)
  {
    t' := Goes(future, t, client, Reader(Handle));
  }

  lemma Reads(future: iset<Tunnel>, t: Tunnel, client: bool) returns (t': Tunnel)
    requires IsFuture(future) && t in future && End(t, client).hand == Idle && !Started(End(t, client), KReader)
    requires Pos(t, client) < End(t, !client).sent <= |End(t, !client).enq|
    ensures t' in future && PeerSame(t, t', client) && Pos(t', client) == Pos(t, client) + 1
    ensures var f := End(t, !client).enq[Pos(t, client)];
            End(t', client) == End(t, client).(seen := End(t, client).seen + [f], hand := HandFor(f))
  {
    t' := Goes(future, t, client, Reader(Read(End(t, !client).enq[Pos(t, client)])));
  }

  // ── a live writer makes room and gets frames out ───────────────────────────

  lemma CursorsOf(future: iset<Tunnel>, t: Tunnel, client: bool)
    requires IsFuture(future) && t in future
    ensures Cursors(End(t, client))
  {
    assert Inv(t);
  }

  /** Only the writer of this end has moved. */
  predicate OnlyWriter(t: Tunnel, t': Tunnel, client: bool) {
    && PeerSame(t, t', client) && Pos(t', client) == Pos(t, client)
    && End(t', client) == End(t, client).(taken := End(t', client).taken, sent := End(t', client).sent)
  }

  lemma {:induction false} RoomIsMade(future: iset<Tunnel>, t: Tunnel, client: bool) returns (t': Tunnel)
    requires IsFuture(future) && t in future && !Started(End(t, client), KWriter)
    ensures t' in future && OnlyWriter(t, t', client) && Ready(End(t', client))
    decreases |End(t, client).enq| - End(t, client).taken
  {
    CursorsOf(future, t, client);
    if Ready(End(t, client)) {
      t' := t;
    } else {
      var u := t;
      if End(t, client).sent < End(t, client).taken {
        u := Wires(future, t, client, Write);
      }
      u := Wires(future, u, client, Take);
      t' := RoomIsMade(future, u, client);
    }
  }

  lemma NextIsSent(future: iset<Tunnel>, t: Tunnel, client: bool) returns (t': Tunnel)
    requires IsFuture(future) && t in future && !Started(End(t, client), KWriter)
    requires End(t, client).sent < |End(t, client).enq|
    ensures t' in future && OnlyWriter(t, t', client) && End(t', client).sent == End(t, client).sent + 1
  {
    CursorsOf(future, t, client);
    var u := t;
    if End(t, client).taken == End(t, client).sent {
      u := Wires(future, t, client, Take);
    }
    t' := Wires(future, u, client, Write);
  }

  // ── what is read is delivered ──────────────────────────────────────────────

  /** No stream that was clean is hurt on the way. */
  ghost predicate Spares(t: Tunnel, t': Tunnel) {
    forall i: Id :: CleanFor(t, i) ==> CleanFor(t', i)
  }

  lemma PhasesOf(future: iset<Tunnel>, t: Tunnel, client: bool)
    requires IsFuture(future) && t in future
    ensures Phases(End(t, client)) && End(t, client).role == (if client then Client else Server)
  {
    assert Inv(t);
  }

  lemma PhaseOf(future: iset<Tunnel>, t: Tunnel, client: bool, j: Id)
    requires IsFuture(future) && t in future && j in End(t, client).streams
    ensures PhaseOk(End(t, client).role, End(t, client).streams[j])
  {
    PhasesOf(future, t, client);
  }

  lemma CleanStreamOf(future: iset<Tunnel>, t: Tunnel, client: bool, j: Id)
    requires IsFuture(future) && t in future && CleanFor(t, j) && j in End(t, client).streams
    ensures var e := End(t, client); !e.death.dead && CleanHand(e, j) && CleanStream(e.streams[j], j, e)
  {
    assert Inv(t);
  }

  lemma SpokenOfIsOpened(future: iset<Tunnel>, t: Tunnel, client: bool, j: Id)
    requires IsFuture(future) && t in future && j in End(t, client).streams && j in Ids(End(t, client).seen)
    ensures End(t, client).streams[j].task != Registered
  {
    assert Inv(t);
    OpenedBeforeSpokenOf(End(t, client), j);
  }

  lemma OpenedBeforeSpokenOf(e: Endpoint, j: Id)
    requires Book(e) && j in e.streams && j in Ids(e.seen)
    ensures e.streams[j].task != Registered
  {
    assert PhaseOk(e.role, e.streams[j]);
  }

  /** Only stream `j` of this end has moved. */
  predicate OnlyStream(t: Tunnel, t': Tunnel, client: bool, j: Id) {
    && PeerSame(t, t', client) && Pos(t', client) == Pos(t, client)
    && j in End(t', client).streams
    && End(t', client) == End(t, client).(streams := End(t, client).streams[j := End(t', client).streams[j]])
  }

  /** A clean stream its peer has spoken of gets its pump. */
  lemma PumpStarts(future: iset<Tunnel>, t: Tunnel, client: bool, j: Id) returns (t': Tunnel)
    requires IsFuture(future) && t in future && CleanFor(t, j)
    requires j in End(t, client).streams && j in Ids(End(t, client).seen)
    ensures t' in future && OnlyStream(t, t', client, j)
    ensures End(t', client).streams[j].task == Pumping
    ensures End(t', client).streams[j].chan == End(t, client).streams[j].chan
  {
    CleanStreamOf(future, t, client, j);
    SpokenOfIsOpened(future, t, client, j);
    t' := t;
    if End(t', client).streams[j].task == Opened {
      t' := Tasks(future, t', client, CheckDead(j));
    }
    if End(t', client).streams[j].task != Pumping {
      t' := Tasks(future, t', client, Spawn(j));
    }
  }

  /** A running downlink finishes the chunk it is writing. */
  lemma ChunkIsWritten(future: iset<Tunnel>, t: Tunnel, client: bool, j: Id) returns (t': Tunnel)
    requires IsFuture(future) && t in future
    requires j in End(t, client).streams && End(t, client).streams[j].task == Pumping
    ensures t' in future && OnlyStream(t, t', client, j)
    ensures var st := End(t', client).streams[j];
            && st.task == Pumping && st.chan == End(t, client).streams[j].chan
            && (st.down == DownRecv || (st.down == DownDone && t' == t))
  {
    PhaseOf(future, t, client, j);
    t' := t;
    var down := End(t, client).streams[j].down;
    if down.DownWriting? {
      t' := Pumps(future, t, client, DownWrite(j, |down.rest|));
    }
  }

  /** What waits in the channel the reader is delivering to. */
  function Backlog(e: Endpoint): nat {
    if e.hand.Delivering? && e.hand.id in e.streams then |e.streams[e.hand.id].chan| else 0
  }

  lemma ChannelGetsRoom(future: iset<Tunnel>, t: Tunnel, client: bool) returns (t': Tunnel)
    requires IsFuture(future) && t in future && End(t, client).hand.Delivering? && CleanFor(t, End(t, client).hand.id)
    ensures t' in future && OnlyStream(t, t', client, End(t, client).hand.id) && HandEnabled(End(t', client))
    decreases Backlog(End(t, client))
  {
    var j := End(t, client).hand.id;
    PhasesOf(future, t, client);
    CleanStreamOf(future, t, client, j);
    if HandEnabled(End(t, client)) {
      t' := t;
    } else {
      var u := PumpStarts(future, t, client, j);
      u := ChunkIsWritten(future, u, client, j);
      CleanStreamOf(future, u, client, j);
      u := Pumps(future, u, client, DownTake(j));
      t' := ChannelGetsRoom(future, u, client);
    }
  }

  lemma TimesOut(future: iset<Tunnel>, t: Tunnel, client: bool) returns (t': Tunnel)
    requires IsFuture(future) && t in future && End(t, client).hand.Delivering? && !HandEnabled(End(t, client))
    ensures t' in future && PeerSame(t, t', client) && ReaderEnabled(End(t, client), Timeout)
    ensures End(t', client) == DoReader(End(t, client), Timeout) && Pos(t', client) == Pos(t, client)
  {
    PhasesOf(future, t, client);
    t' := Goes(future, t, client, Reader(Timeout));
  }

  /** What the reader does about one frame leaves the peer, the frames it has read and the killers alone. */
  predicate OnlyReader(t: Tunnel, t': Tunnel, client: bool) {
    && PeerSame(t, t', client) && Pos(t', client) == Pos(t, client)
    && End(t', client).seen == End(t, client).seen && End(t', client).death == End(t, client).death
  }

  /** One step of the reader, and room for it if it needs any: a chunk for a clean stream waits until the
      stream's pump has made room, one for any other may time out. */
  lemma HandGoesOn(future: iset<Tunnel>, t: Tunnel, client: bool) returns (t': Tunnel)
    requires IsFuture(future) && t in future && End(t, client).hand != Idle
    requires WriterGone(End(t, client)) || !Started(End(t, client), KWriter)
    ensures t' in future && OnlyReader(t, t', client) && Spares(t, t')
    ensures HandRank(End(t', client).hand) < HandRank(End(t, client).hand)
  {
    if End(t, client).hand.Delivering? {
      if CleanFor(t, End(t, client).hand.id) {
        t' := ChannelGetsRoom(future, t, client);
        t' := Handles(future, t', client);
      } else if HandEnabled(End(t, client)) {
        t' := Handles(future, t, client);
      } else {
        t' := TimesOut(future, t, client);
      }
    } else {
      t' := t;
      if (End(t, client).hand.Ponging? || End(t, client).hand.Echoing?) && !WriterGone(End(t, client)) {
        t' := RoomIsMade(future, t, client);
      }
      t' := Handles(future, t', client);
    }
  }

  lemma {:induction false} HandFinishes(future: iset<Tunnel>, t: Tunnel, client: bool) returns (t': Tunnel)
    requires IsFuture(future) && t in future && (WriterGone(End(t, client)) || !Started(End(t, client), KWriter))
    ensures t' in future && OnlyReader(t, t', client) && Spares(t, t') && End(t', client).hand == Idle
    decreases HandRank(End(t, client).hand)
  {
    if End(t, client).hand == Idle {
      t' := t;
    } else {
      var u := HandGoesOn(future, t, client);
      t' := HandFinishes(future, u, client);
    }
  }

  /** This end has been given every frame its peer ever enqueued, and has dealt with it. */
  predicate ReadOut(t: Tunnel, client: bool) {
    Pos(t, client) == |End(t, !client).enq| && End(t, client).hand == Idle
  }

  /** Between live ends every frame the peer enqueued gets out, is read and dealt with, while the peer's streams
      stay put. */
  lemma {:induction false} EverythingIsRead(future: iset<Tunnel>, t: Tunnel, client: bool) returns (t': Tunnel)
    requires IsFuture(future) && t in future && Alive(t)
    ensures t' in future && Alive(t') && Spares(t, t') && ReadOut(t', client)
    ensures End(t', !client).enq == End(t, !client).enq && End(t', !client).streams == End(t, !client).streams
    decreases |End(t, !client).enq| - Pos(t, client)
  {
    var u := HandFinishes(future, t, client);
    PosInside(future, u, client);
    if Pos(u, client) == |End(u, !client).enq| {
      t' := u;
    } else {
      if Pos(u, client) == End(u, !client).sent {
        u := NextIsSent(future, u, !client);
        PosInside(future, u, client);
      }
      u := Reads(future, u, client);
      t' := EverythingIsRead(future, u, client);
    }
  }

  lemma PosInside(future: iset<Tunnel>, t: Tunnel, client: bool)
    requires IsFuture(future) && t in future
    ensures Pos(t, client) <= End(t, !client).sent <= |End(t, !client).enq|
  {
    assert Inv(t);
  }

  /** Read out without loss, a stream closed by its peer is known and unregistered. */
  lemma ClosedIsGone(future: iset<Tunnel>, t: Tunnel, client: bool, i: Id)
    requires IsFuture(future) && t in future && t.upLossless && t.downLossless && ReadOut(t, client)
    requires Mux.Close(i) in End(t, !client).enq
    ensures var e := End(t, client); i in e.streams && i in Ids(e.seen) && i !in e.reg
  {
    assert Inv(t);
    AllSeen(End(t, !client), End(t, client), Pos(t, client));
    KnownWhenClosed(End(t, client), i);
  }

  lemma AllSeen(sender: Endpoint, reader: Endpoint, pos: nat)
    requires WireInv(sender, reader, pos, true) && pos == |sender.enq|
    ensures reader.seen == sender.enq
  {
  }

  lemma KnownWhenClosed(e: Endpoint, i: Id)
    requires Book(e) && CloseInv(e) && e.hand == Idle && Mux.Close(i) in e.seen
    requires e.role == Server ==> OpensFirst(e.seen)
    ensures i in e.streams && i in Ids(e.seen) && i !in e.reg
  {
    IdsOf(e.seen, Mux.Close(i));
    if e.role == Server {
      OpenPrecedes(e.seen, i);
    }
  }

  /** A downlink without a sender drains its channel and FINs. */
  lemma {:induction false} DownlinkDrains(future: iset<Tunnel>, t: Tunnel, client: bool, i: Id) returns (t': Tunnel)
    requires IsFuture(future) && t in future && !HasSender(End(t, client), i)
    requires i in End(t, client).streams && End(t, client).streams[i].task == Pumping
    ensures t' in future && OnlyStream(t, t', client, i)
    ensures End(t', client).streams[i].fin && End(t', client).streams[i].task == Pumping
    decreases |End(t, client).streams[i].chan|
  {
    var u := ChunkIsWritten(future, t, client, i);
    PhaseOf(future, u, client, i);
    if End(u, client).streams[i].fin {
      t' := u;
    } else if End(u, client).streams[i].chan == [] {
      t' := Pumps(future, u, client, DownEnds(i));
    } else {
      u := Pumps(future, u, client, DownTake(i));
      t' := DownlinkDrains(future, u, client, i);
    }
  }

  /** Everything the finished uplink of a clean stream sent arrives, and the far side FINs. */
  lemma ClosedStreamFins(future: iset<Tunnel>, t: Tunnel, client: bool, i: Id) returns (t': Tunnel)
    requires IsFuture(future) && t in future && CleanFor(t, i) && Mux.Close(i) in End(t, !client).enq
    ensures t' in future && Spares(t, t') && i in End(t', client).streams && End(t', client).streams[i].fin
    ensures End(t', !client).streams == End(t, !client).streams
  {
    var u := EverythingIsRead(future, t, client);
    ClosedIsGone(future, u, client, i);
    var v := PumpStarts(future, u, client, i);
    t' := DownlinkDrains(future, v, client, i);
  }

  // ── a stream is opened ─────────────────────────────────────────────────────

  /** Nothing bad has happened at all. */
  predicate NobodyHurt(t: Tunnel) {
    Alive(t) && t.c.hurt == {} && t.s.hurt == {} && t.upLossless && t.downLossless
  }

  lemma NobodyHurtIsClean(t: Tunnel)
    ensures NobodyHurt(t) <==> forall i: Id :: CleanFor(t, i)
  {
    if forall i: Id :: CleanFor(t, i) {
      assert CleanFor(t, 0);
      assert forall i: Id :: CleanFor(t, i) ==> i !in t.c.hurt && i !in t.s.hurt;
    }
  }

  /** A client with one stream, whose pump runs. */
  predicate ClientUp(e: Endpoint) {
    && e.death == Init(Client).death && e.hand == Idle && 1 in e.streams && e.streams[1].task == Pumping
    && e.streams[1].up == UpReading && e.streams[1].read == [] && !e.streams[1].cut
  }

  lemma StreamOpens(future: iset<Tunnel>) returns (t: Tunnel)
    requires IsFuture(future) && START in future
    ensures t in future && ClientUp(t.c) && t.s == Init(Server) && t.upPos == 0 && t.downPos == 0 && NobodyHurt(t)
    ensures t.c == Init(Client).(allocs := 1, reg := {1}, enq := [Open(1)],
                                 streams := map[1 := NewStream(Pumping).(up := UpReading, down := DownRecv)])
  {
    t := Tasks(future, START, true, Alloc);
    t := Tasks(future, t, true, Register(1));
    assert {} + {1} - {1} == {};
    t := Tasks(future, t, true, SendOpen(1));
    t := Tasks(future, t, true, CheckDead(1));
    t := Tasks(future, t, true, Spawn(1));
  }
}
