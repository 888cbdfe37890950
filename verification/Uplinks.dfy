// What a CLOSE does not do: it ends the downlink of a stream, never its uplink. When an end that has been told
// CLOSE for a stream can still send DATA on it, exactly.
module Uplinks {
  import opened Bytes
  import opened Mux
  import opened History
  import opened Endpoint
  import opened Bookkeeping
  import opened Integrity
  import opened Tunnel
  import opened Futures

  /** A frame can still be enqueued some time: the writer is there, and if it is on its way out the channel
      has room already. */
  predicate RoomEver(e: Endpoint) {
    !WriterGone(e) && (Started(e, KWriter) ==> |e.enq| - e.taken < FRAME_CHANNEL_CAPACITY)
  }

  /** The uplink is reading or sending, or will be once its pump is spawned. */
  predicate UplinkLives(st: Stream, dead: bool) {
    match st.task
    case Pumping => st.up == UpReading || st.up.UpSending?
    case Checked => true
    case Dialing => true
    case Opened => !dead
    case _ => false
  }

  predicate MaySend(e: Endpoint, i: Id) {
    RoomEver(e) && i in e.streams && UplinkLives(e.streams[i], e.death.dead)
  }

  /** The peer's CLOSE of `i` was read and dealt with. */
  predicate CloseHandled(e: Endpoint, i: Id) {
    Mux.Close(i) in e.seen && e.hand != Hand.Closing(i)
  }

  // ── once it cannot send it never will ──────────────────────────────────────

  /** No OPEN is outstanding for `i` at this end, in either direction. */
  predicate PastOpening(e: Endpoint, i: Id) {
    && i in Ids(e.seen) && e.hand != Hand.Opening(i)
    && (i in e.streams ==> e.streams[i].task != Registered)
  }

  lemma HandledIsPastOpening(e: Endpoint, i: Id)
    requires LocalInv(e) && CloseHandled(e, i)
    ensures PastOpening(e, i)
  {
    IdsOf(e.seen, Mux.Close(i));
    if i in e.streams {
      OpenedBeforeSpokenOf(e, i);
    }
  }

  predicate Mute(e: Endpoint, i: Id) {
    i in e.streams ==> !UplinkLives(e.streams[i], e.death.dead)
  }

  lemma TaskStaysMute(e: Endpoint, k: TaskStep, i: Id)
    requires TaskEnabled(e, k) && PastOpening(e, i) && Mute(e, i)
    requires k.Register? ==> k.i !in Ids(e.seen)
    ensures Mute(DoTask(e, k), i)
  {
  }

  lemma PumpStaysMute(e: Endpoint, p: PumpStep, i: Id)
    requires PumpEnabled(e, p) && Phases(e) && Mute(e, i)
    ensures Mute(DoPump(e, p), i)
  {
    if p.i == i {
      assert PhaseOk(e.role, e.streams[i]);
    }
  }

  lemma ReaderStaysMute(e: Endpoint, r: ReaderStep, i: Id)
    requires ReaderEnabled(e, r) && PastOpening(e, i) && Mute(e, i)
    ensures Mute(DoReader(e, r), i)
  {
  }

  lemma KillStaysMute(e: Endpoint, s: KillStep, i: Id)
    requires KillEnabled(e, s) && Mute(e, i)
    ensures Mute(DoKill(e, s), i)
  {
  }

  lemma StaysMute(e: Endpoint, a: Step, i: Id)
    requires Enabled(e, a) && Fresh(e, a) && Phases(e) && PastOpening(e, i) && Mute(e, i)
    ensures Mute(Do(e, a), i)
  {
    match a
    case Task(k) => TaskStaysMute(e, k, i);
    case Pump(p) => PumpStaysMute(e, p, i);
    case Reader(r) => ReaderStaysMute(e, r, i);
    case Wire(w) =>
    case Kill(s) => KillStaysMute(e, s, i);
  }

  lemma PumpWithoutRoom(e: Endpoint, p: PumpStep)
    requires PumpEnabled(e, p) && !RoomEver(e)
    ensures PumpEnq(e, p) == e.enq
  {
  }

  lemma TaskWithoutRoom(e: Endpoint, k: TaskStep)
    requires TaskEnabled(e, k) && !RoomEver(e)
    ensures TaskEnq(e, k) == e.enq
  {
  }

  lemma KillWithoutRoom(e: Endpoint, s: KillStep)
    requires KillEnabled(e, s) && !RoomEver(e)
    ensures !RoomEver(DoKill(e, s))
  {
  }

  /** A channel without room whose writer is on its way out never takes another frame. */
  lemma RoomIsGone(e: Endpoint, a: Step)
    requires Enabled(e, a) && !RoomEver(e)
    ensures !RoomEver(Do(e, a)) && Do(e, a).enq == e.enq
  {
    match a
    case Task(k) => TaskWithoutRoom(e, k);
    case Pump(p) => PumpWithoutRoom(e, p);
    case Reader(r) =>
    case Wire(w) =>
    case Kill(s) => KillWithoutRoom(e, s);
  }

  lemma ReaderPastOpening(e: Endpoint, r: ReaderStep, i: Id)
    requires ReaderEnabled(e, r) && PastOpening(e, i)
    requires r.Read? && r.f.Open? ==> r.f.stream !in Ids(e.seen)
    ensures PastOpening(DoReader(e, r), i)
  {
    if r.Read? {
      IdsSnoc(e.seen, r.f);
    }
  }

  lemma TaskPastOpening(e: Endpoint, k: TaskStep, i: Id)
    requires TaskEnabled(e, k) && PastOpening(e, i) && (k.Register? ==> k.i !in Ids(e.seen))
    ensures PastOpening(DoTask(e, k), i)
  {
  }

  lemma PumpPastOpening(e: Endpoint, p: PumpStep, i: Id)
    requires PumpEnabled(e, p) && PastOpening(e, i)
    ensures PastOpening(DoPump(e, p), i)
  {
    assert PumpStream(e, p).task == e.streams[p.i].task;
  }

  lemma PastOpeningStays(e: Endpoint, a: Step, i: Id)
    requires Enabled(e, a) && Fresh(e, a) && PastOpening(e, i)
    ensures PastOpening(Do(e, a), i)
  {
    match a
    case Task(k) => TaskPastOpening(e, k, i);
    case Pump(p) => PumpPastOpening(e, p, i);
    case Reader(r) => ReaderPastOpening(e, r, i);
    case Wire(w) =>
    case Kill(s) =>
  }

  lemma SendingLives(e: Endpoint, i: Id)
    requires Phases(e) && i in e.streams
    ensures e.streams[i].up.UpSending? ==> UplinkLives(e.streams[i], e.death.dead)
  {
    assert PhaseOk(e.role, e.streams[i]);
  }

  /** A mute uplink sends nothing. */
  lemma MuteSendsNothing(e: Endpoint, a: Step, i: Id)
    requires Enabled(e, a) && Phases(e) && Mute(e, i)
    ensures DataOf(Do(e, a).enq, i) == DataOf(e.enq, i)
  {
    var f := EnqueuedByStep(e, a);
    if Do(e, a).enq == e.enq + [f] {
      assert Payloads(f, i) == [] by {
        if i in e.streams { SendingLives(e, i); }
      }
      DataOfSnoc(e.enq, f);
    }
  }

  /** No DATA of `i` will ever be enqueued again. */
  predicate Silenced(e: Endpoint, i: Id) {
    PastOpening(e, i) && (!RoomEver(e) || Mute(e, i))
  }

  lemma SilencedStep(e: Endpoint, a: Step, i: Id)
    requires Enabled(e, a) && Fresh(e, a) && Phases(e) && Silenced(e, i)
    ensures Silenced(Do(e, a), i) && DataOf(Do(e, a).enq, i) == DataOf(e.enq, i)
  {
    PastOpeningStays(e, a, i);
    if Mute(e, i) {
      StaysMute(e, a, i);
      MuteSendsNothing(e, a, i);
    } else {
      RoomIsGone(e, a);
    }
  }

  lemma SilencedNext(t: Tunnel, x: TunnelStep, client: bool, i: Id)
    requires Inv(t) && MayHappen(t, x) && Silenced(End(t, client), i)
    ensures Silenced(End(Next(t, x), client), i)
    ensures DataOf(End(Next(t, x), client).enq, i) == DataOf(End(t, client).enq, i)
  {
    ReadsAreOk(t, x);
    if (client && x.AtClient?) || (!client && x.AtServer?) {
      StepIsFresh(End(t, client), x.a);
      SilencedStep(End(t, client), x.a, i);
    }
  }

  lemma SilencedOneMore(run: seq<TunnelStep>, x: TunnelStep, client: bool, i: Id)
    requires Legal(run) && Legal(run + [x]) && Silenced(End(After(run), client), i)
    ensures Silenced(End(After(run + [x]), client), i)
    ensures DataOf(End(After(run + [x]), client).enq, i) == DataOf(End(After(run), client).enq, i)
  {
    assert (run + [x])[..|run|] == run;
    Always(run);
    SilencedNext(After(run), x, client, i);
  }

  lemma LegalFront(run: seq<TunnelStep>, x: TunnelStep)
    requires Legal(run + [x])
    ensures Legal(run)
  {
    assert (run + [x])[..|run|] == run;
  }

  lemma {:induction false} SilencedForGood(run: seq<TunnelStep>, more: seq<TunnelStep>, client: bool, i: Id)
    requires Legal(run) && Legal(run + more) && Silenced(End(After(run), client), i)
    ensures Silenced(End(After(run + more), client), i)
    ensures DataOf(End(After(run + more), client).enq, i) == DataOf(End(After(run), client).enq, i)
  {
    if |more| == 0 {
      assert run + more == run;
    } else {
      var front, x := more[..|more| - 1], more[|more| - 1];
      assert run + more == run + front + [x];
      LegalFront(run + front, x);
      SilencedForGood(run, front, client, i);
      SilencedOneMore(run + front, x, client, i);
    }
  }

  // ── while it can send it may ───────────────────────────────────────────────

  lemma PumpComes(future: iset<Tunnel>, t: Tunnel, client: bool, i: Id) returns (t': Tunnel)
    requires IsFuture(future) && t in future && i in End(t, client).streams
    requires UplinkLives(End(t, client).streams[i], End(t, client).death.dead)
    ensures t' in future && OnlyStream(t, t', client, i)
    ensures var st := End(t', client).streams[i]; st.up == UpReading || st.up.UpSending?
  {
    t' := t;
    if End(t', client).streams[i].task == Opened {
      t' := Tasks(future, t', client, CheckDead(i));
    }
    if End(t', client).streams[i].task != Pumping {
      t' := Tasks(future, t', client, Spawn(i));
    }
  }

  lemma RoomComes(future: iset<Tunnel>, t: Tunnel, client: bool) returns (t': Tunnel)
    requires IsFuture(future) && t in future && RoomEver(End(t, client))
    ensures t' in future && OnlyWriter(t, t', client) && Ready(End(t', client))
  {
    if Started(End(t, client), KWriter) {
      t' := t;
    } else {
      t' := RoomIsMade(future, t, client);
    }
  }

  lemma DataGoesOut(future: iset<Tunnel>, t: Tunnel, client: bool, i: Id) returns (t': Tunnel)
    requires IsFuture(future) && t in future && MaySend(End(t, client), i)
    ensures t' in future
    ensures exists chunk :: DataOf(End(t', client).enq, i) == DataOf(End(t, client).enq, i) + [chunk]
  {
    var u := PumpComes(future, t, client, i);
    u := RoomComes(future, u, client);
    if End(u, client).streams[i].up == UpReading {
      u := Pumps(future, u, client, UpRead(i, [0]));
    }
    t' := Pumps(future, u, client, UpSend(i));
    var chunk := NextChunk(End(u, client).streams[i].up.rest);
    DataOfSnoc(End(u, client).enq, Data(i, chunk));
    assert DataOf(End(t', client).enq, i) == DataOf(End(t, client).enq, i) + [chunk];
  }

  /** Some continuation of the run enqueues another DATA of `i` at this end. */
  ghost predicate CanStillSend(run: seq<TunnelStep>, client: bool, i: Id)
    requires Legal(run)
  {
    exists more: seq<TunnelStep> :: SendsMore(run, more, client, i)
  }

  ghost predicate SendsMore(run: seq<TunnelStep>, more: seq<TunnelStep>, client: bool, i: Id)
    requires Legal(run)
  {
    Legal(run + more) && |DataOf(End(After(run + more), client).enq, i)| > |DataOf(End(After(run), client).enq, i)|
  }

  lemma MaySendSends(run: seq<TunnelStep>, client: bool, i: Id)
    requires Legal(run) && MaySend(End(After(run), client), i)
    ensures CanStillSend(run, client, i)
  {
    FutureOfRun(run);
    var t' := DataGoesOut(FutureOf(run), After(run), client, i);
    var more: seq<TunnelStep> :| Run(run + more) == Some(t');
    assert SendsMore(run, more, client, i);
  }

  lemma SilencedSendsNothing(run: seq<TunnelStep>, client: bool, i: Id)
    requires Legal(run) && Silenced(End(After(run), client), i)
    ensures !CanStillSend(run, client, i)
  {
    forall more: seq<TunnelStep> | Legal(run + more)
      ensures !SendsMore(run, more, client, i)
    {
      SilencedForGood(run, more, client, i);
    }
  }

  /** A CLOSE, echoed or not, does not make its receiver stop sending: after it was handled another DATA can
      follow exactly when the writer can still take a frame and the uplink lives. The registry, which is all
      the CLOSE changes, plays no part. */
  lemma CloseDoesNotSilence(run: seq<TunnelStep>, client: bool, i: Id)
    requires Legal(run) && CloseHandled(End(After(run), client), i)
    ensures CanStillSend(run, client, i) <==> MaySend(End(After(run), client), i)
  {
    if MaySend(End(After(run), client), i) {
      MaySendSends(run, client, i);
    } else {
      Always(run);
      HandledIsPastOpening(End(After(run), client), i);
      SilencedSendsNothing(run, client, i);
    }
  }

  // ── and it does happen ─────────────────────────────────────────────────────

  /** The server connects; its upstream ends at once, and its CLOSE goes out. */
  lemma ServerCloses(future: iset<Tunnel>, t: Tunnel) returns (t': Tunnel)
    requires IsFuture(future) && t in future && ClientUp(t.c) && t.c.enq == [Open(1)] && t.c.sent == 0
    requires t.s == Init(Server) && t.upPos == 0 && t.downPos == 0
    ensures t' in future && ClientUp(t'.c) && t'.downPos == 0 && t'.s.enq == [Mux.Close(1)] && t'.s.sent == 1
  {
    t' := NextIsSent(future, t, true);
    t' := Reads(future, t', false);
    t' := Handles(future, t', false);
    t' := Tasks(future, t', false, Spawn(1));
    t' := Pumps(future, t', false, UpEof(1));
    t' := Pumps(future, t', false, UpClose(1));
    t' := NextIsSent(future, t', false);
  }

  /** The client is told CLOSE, its entry goes, and its uplink sends on. */
  lemma ClientIsTold(future: iset<Tunnel>, t: Tunnel) returns (t': Tunnel)
    requires IsFuture(future) && t in future && ClientUp(t.c) && t.downPos == 0
    requires t.s.enq == [Mux.Close(1)] && t.s.sent == 1
    ensures t' in future && CloseHandled(t'.c, 1) && 1 !in t'.c.reg && MaySend(t'.c, 1)
  {
    t' := Reads(future, t, true);
    t' := Handles(future, t', true);
  }

  /** A run in which the client has handled a CLOSE, and one that goes on from there with another DATA. */
  lemma SendsAfterClose() returns (run: seq<TunnelStep>, more: seq<TunnelStep>)
    ensures Legal(run) && CloseHandled(After(run).c, 1) && 1 !in After(run).c.reg
    ensures SendsMore(run, more, true, 1)
  {
    var future := FutureOf([]);
    FutureOfRun([]);
    var t := StreamOpens(future);
    t := ServerCloses(future, t);
    t := ClientIsTold(future, t);
    run :| Run([] + run) == Some(t);
    assert [] + run == run;
    MaySendSends(run, true, 1);
    more :| SendsMore(run, more, true, 1);
  }
}
