// A PING that is lost on the way is never answered, and the keepalive that sent it kills the tunnel: the run of
// the two ends under a clock, with the keepalive counting that run's own PONGs.
module FirstPing {
  import opened Bytes
  import opened Mux
  import opened Endpoint
  import opened Tunnel
  import T = Tunnel
  import opened Futures
  import opened Replies
  import opened Keepalive

  // ── a lost PING is never answered ──────────────────────────────────────────

  /** The peer has read no PING of this end, and none is on its way. */
  predicate NoPingComes(t: Tunnel, client: bool) {
    NoPing(End(t, client).enq, Pos(t, !client), End(t, !client).seen)
  }

  /** Of the frames enqueued at one end the other has been given the first `pos`, and has seen some. */
  predicate NoPing(enq: seq<Frame>, pos: nat, seen: seq<Frame>) {
    pos <= |enq| && Pings(seen) == 0 && Pings(enq[pos..]) == 0
  }

  predicate SendsPing(x: TunnelStep, client: bool) {
    (if client then x.AtClient? else x.AtServer?) && x.a.Wire? && x.a.w.SendPing?
  }

  lemma PingsSnoc(fs: seq<Frame>, f: Frame)
    ensures Pings(fs + [f]) == Pings(fs) + if f.Ping? then 1 else 0
  {
    assert (fs + [f])[..|fs|] == fs;
  }

  lemma {:induction false} PingsCons(fs: seq<Frame>)
    requires |fs| > 0
    ensures Pings(fs) == Pings(fs[1..]) + if fs[0].Ping? then 1 else 0
  {
    if |fs| == 1 {
      assert fs == [] + [fs[0]] && fs[1..] == [];
      PingsSnoc([], fs[0]);
    } else {
      var front := fs[..|fs| - 1];
      PingsCons(front);
      assert fs == front + [fs[|fs| - 1]] && fs[1..] == front[1..] + [fs[|fs| - 1]];
      PingsSnoc(front, fs[|fs| - 1]);
      PingsSnoc(front[1..], fs[|fs| - 1]);
    }
  }

  /** Only the keepalive sends PINGs. */
  lemma PingsSent(e: Endpoint, a: Step) returns (f: Frame)
    requires Enabled(e, a) && !(a.Wire? && a.w.SendPing?)
    ensures !f.Ping? && (Do(e, a).enq == e.enq || Do(e, a).enq == e.enq + [f])
  {
    match a
    case Task(t) => f := if t.SendOpen? then Open(t.i) else if t.Refuse? then Mux.Close(t.i) else Mux.Close(0);
    case Pump(p) => f := if p.UpSend? then Data(p.i, NextChunk(e.streams[p.i].up.rest)) else Mux.Close(p.i);
    case Reader(r) =>
      f := if e.hand.Echoing? then Mux.Close(e.hand.id)
           else if e.hand.Ponging? then Pong(e.hand.nonce)
           else Mux.Close(0);
    case Wire(w) => f := Mux.Close(0);
    case Kill(s) => f := Mux.Close(0);
  }

  /** A step of the pinging end. */
  lemma PingerStep(e: Endpoint, a: Step, pos: nat, seen: seq<Frame>)
    requires Enabled(e, a) && !(a.Wire? && a.w.SendPing?) && NoPing(e.enq, pos, seen)
    ensures NoPing(Do(e, a).enq, pos, seen)
  {
    var f := PingsSent(e, a);
    if Do(e, a).enq == e.enq + [f] {
      assert (e.enq + [f])[pos..] == e.enq[pos..] + [f];
      PingsSnoc(e.enq[pos..], f);
    }
  }

  /** One record further on the wire, read or lost. */
  lemma OneFurther(enq: seq<Frame>, pos: nat)
    requires pos < |enq| && Pings(enq[pos..]) == 0
    ensures !enq[pos].Ping? && Pings(enq[pos + 1..]) == 0
  {
    PingsCons(enq[pos..]);
    assert enq[pos..][1..] == enq[pos + 1..];
  }

  /** A step of the other end. */
  lemma PeerStep(e: Endpoint, a: Step, pinger: Endpoint, pos: nat)
    requires Enabled(e, a) && WireAllows(a, pinger, pos) && NoPing(pinger.enq, pos, e.seen)
    ensures NoPing(pinger.enq, pos + T.Advance(a), Do(e, a).seen)
  {
    if a.Reader? && a.r.Read? {
      OneFurther(pinger.enq, pos);
      PingsSnoc(e.seen, a.r.f);
    } else {
      SeenStays(e, a);
    }
  }

  lemma SeenStays(e: Endpoint, a: Step)
    requires Enabled(e, a) && !(a.Reader? && a.r.Read?)
    ensures Do(e, a).seen == e.seen
  {
  }

  lemma LossStep(enq: seq<Frame>, sent: nat, pos: nat)
    requires pos < sent <= |enq| && Pings(enq[pos..]) == 0
    ensures Pings(enq[pos + 1..]) == 0
  {
    OneFurther(enq, pos);
  }

  lemma NoPingAtClient(t: Tunnel, a: Step, client: bool)
    requires MayHappen(t, AtClient(a)) && NoPingComes(t, client) && !SendsPing(AtClient(a), client)
    ensures NoPingComes(Next(t, AtClient(a)), client)
  {
    if client {
      PingerStep(t.c, a, t.upPos, t.s.seen);
    } else {
      PeerStep(t.c, a, t.s, t.downPos);
    }
  }

  lemma NoPingAtServer(t: Tunnel, a: Step, client: bool)
    requires MayHappen(t, AtServer(a)) && NoPingComes(t, client) && !SendsPing(AtServer(a), client)
    ensures NoPingComes(Next(t, AtServer(a)), client)
  {
    if client {
      PeerStep(t.s, a, t.c, t.upPos);
    } else {
      PingerStep(t.s, a, t.downPos, t.c.seen);
    }
  }

  lemma NoPingLoss(t: Tunnel, x: TunnelStep, client: bool)
    requires MayHappen(t, x) && NoPingComes(t, client) && (x.LoseUp? || x.LoseDown?)
    requires t.c.sent <= |t.c.enq| && t.s.sent <= |t.s.enq|
    ensures NoPingComes(Next(t, x), client)
  {
    if x.LoseUp? && client {
      LossStep(t.c.enq, t.c.sent, t.upPos);
    } else if x.LoseDown? && !client {
      LossStep(t.s.enq, t.s.sent, t.downPos);
    }
  }

  lemma NoPingNext(t: Tunnel, x: TunnelStep, client: bool)
    requires t.c.sent <= |t.c.enq| && t.s.sent <= |t.s.enq|
    requires MayHappen(t, x) && NoPingComes(t, client) && !SendsPing(x, client)
    ensures NoPingComes(Next(t, x), client)
  {
    match x
    case AtClient(a) => NoPingAtClient(t, a, client);
    case AtServer(a) => NoPingAtServer(t, a, client);
    case _ => NoPingLoss(t, x, client);
  }

  lemma SentInside(run: seq<TunnelStep>)
    requires Legal(run)
    ensures After(run).c.sent <= |After(run).c.enq| && After(run).s.sent <= |After(run).s.enq|
  {
    Always(run);
  }

  lemma {:induction false} PrefixIsLegal(run: seq<TunnelStep>, n: nat)
    requires Legal(run) && n <= |run|
    ensures Legal(run[..n])
  {
    if n == |run| {
      assert run[..n] == run;
    } else {
      var front := run[..|run| - 1];
      PrefixIsLegal(front, n);
      assert front[..n] == run[..n];
    }
  }

  /** Until this end sends another PING, its peer reads none. */
  lemma {:induction false} NoPingIsRead(run: seq<TunnelStep>, n: nat, m: nat, client: bool)
    requires Legal(run) && n <= m <= |run| && Legal(run[..n]) && NoPingComes(After(run[..n]), client)
    requires forall k :: n <= k < m ==> !SendsPing(run[k], client)
    ensures Legal(run[..m]) && NoPingComes(After(run[..m]), client)
    decreases m
  {
    PrefixIsLegal(run, m);
    if n < m {
      NoPingIsRead(run, n, m - 1, client);
      NoPingOneMore(run, m - 1, client);
    }
  }

  lemma NoPingOneMore(run: seq<TunnelStep>, m: nat, client: bool)
    requires m < |run| && Legal(run[..m + 1]) && Legal(run[..m]) && NoPingComes(After(run[..m]), client)
    requires !SendsPing(run[m], client)
    ensures NoPingComes(After(run[..m + 1]), client)
  {
    OneStep(run, m);
    SentInside(run[..m]);
    NoPingNext(After(run[..m]), run[m], client);
  }

  lemma OneStep(run: seq<TunnelStep>, m: nat)
    requires m < |run| && Legal(run[..m + 1])
    ensures Legal(run[..m]) && MayHappen(After(run[..m]), run[m])
    ensures After(run[..m + 1]) == Next(After(run[..m]), run[m])
  {
    assert run[..m + 1][..m] == run[..m];
  }

  // ── and so the keepalive kills ─────────────────────────────────────────────

  /** How many steps of the run have been taken by each millisecond. */
  type Clock = nat -> nat

  ghost predicate Runs(clock: Clock, run: seq<TunnelStep>) {
    forall u: nat :: clock(u) <= |run|
  }

  /** The counter the keepalive of this end looks at. */
  ghost function PongsOver(run: seq<TunnelStep>, clock: Clock, client: bool): Pongs
    requires Legal(run) && Runs(clock, run)
  {
    u => PongsAfter(run, clock(u), client)
  }

  function PongsAfter(run: seq<TunnelStep>, n: nat, client: bool): nat {
    if n <= |run| && Legal(run[..n]) then End(After(run[..n]), client).pongs else 0
  }

  lemma NoPingNoPong(run: seq<TunnelStep>, n: nat, client: bool)
    requires n <= |run| && Legal(run[..n]) && Pings(End(After(run[..n]), !client).seen) == 0
    ensures PongsAfter(run, n, client) == 0
  {
    CountedAnswers(run[..n]);
  }

  /** A PING that was lost kills: if after `n` steps every PING of this end was lost on the way, and its keepalive
      sends no other one before it looks at the counter (the next tick comes no sooner), then whatever else
      both ends do in between, the tunnel is killed when the grace of the first tick runs out. */
  lemma LostPingKills(run: seq<TunnelStep>, n: nat, clock: Clock, client: bool, pingSecs: nat)
    requires Legal(run) && Runs(clock, run) && n <= clock(KEEPALIVE_GRACE)
    requires n <= |run| && Legal(run[..n]) && NoPingComes(After(run[..n]), client)
    requires forall k :: n <= k < clock(KEEPALIVE_GRACE) ==> !SendsPing(run[k], client)
    ensures KillsAt(pingSecs, PongsOver(run, clock, client), KEEPALIVE_GRACE)
  {
    NoPingIsRead(run, n, clock(KEEPALIVE_GRACE), client);
    NoPingNoPong(run, clock(KEEPALIVE_GRACE), client);
    FirstPingDecides(pingSecs, PongsOver(run, clock, client));
  }

  /** The next tick is not due before the grace of the first one is over. */
  lemma NextPingIsLater(pingSecs: nat)
    ensures TickTime(pingSecs, 1) >= KEEPALIVE_GRACE
  {
    NextTick(pingSecs, 0);
  }

  /** The server's first PING, written at once and lost with the client's dropped handshake reader: in the tunnel
      it is the first record down, and it is never read. */
  lemma FirstPingLost(nonce: Nonce) returns (run: seq<TunnelStep>)
    ensures Legal(run) && NoPingComes(After(run), false)
    ensures After(run).s.enq == [Ping(nonce)] && After(run).downPos == 1 && After(run).c == Init(Client)
  {
    var t := START;
    run := [];
    run, t := Goes1(run, t, AtServer(Wire(SendPing(nonce))));
    run, t := Goes1(run, t, AtServer(Wire(Take)));
    run, t := Goes1(run, t, AtServer(Wire(Write)));
    run, t := Goes1(run, t, LoseDown);
  }

  lemma Goes1(run: seq<TunnelStep>, t: Tunnel, x: TunnelStep) returns (run': seq<TunnelStep>, t': Tunnel)
    requires Run(run) == Some(t) && MayHappen(t, x)
    ensures Run(run') == Some(t') && t' == Next(t, x)
  {
    run', t' := run + [x], Next(t, x);
    OneMore(run, t, x);
  }

  // ── a keepalive that has given up ──────────────────────────────────────────

  lemma StartedStays(e: Endpoint, a: Step, k: KillerId)
    requires Enabled(e, a) && Started(e, k)
    ensures Started(Do(e, a), k)
  {
  }

  lemma SilentKeepalive(e: Endpoint, a: Step)
    requires Enabled(e, a) && Started(e, KKeepalive)
    ensures Started(Do(e, a), KKeepalive) && Pings(Do(e, a).enq) == Pings(e.enq)
  {
    StartedStays(e, a, KKeepalive);
    var f := PingsSent(e, a);
    PingsSnoc(e.enq, f);
  }

  /** Once it has begun to kill its tunnel it sends no PING any more. */
  lemma {:induction false} KeepaliveStopsPinging(run: seq<TunnelStep>, n: nat, client: bool)
    requires Legal(run) && n <= |run| && Legal(run[..n]) && Started(End(After(run[..n]), client), KKeepalive)
    ensures Started(End(After(run), client), KKeepalive)
    ensures Pings(End(After(run), client).enq) == Pings(End(After(run[..n]), client).enq)
    decreases |run|
  {
    if n == |run| {
      assert run[..n] == run;
    } else {
      var front, last := run[..|run| - 1], run[|run| - 1];
      assert front[..n] == run[..n];
      KeepaliveStopsPinging(front, n, client);
      match last
      case AtClient(a) => if client { SilentKeepalive(After(front).c, a); }
      case AtServer(a) => if !client { SilentKeepalive(After(front).s, a); }
      case _ =>
    }
  }
}
