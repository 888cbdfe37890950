// Two endpoints joined by a wire, every interleaving of their steps, and what holds after every run.
module Tunnel {
  import opened Bytes
  import opened Mux
  import opened History
  import opened Endpoint
  import opened Bookkeeping
  import opened Integrity
  import opened Death
  import opened Closing

  /** `up` is client to server. `upPos` counts the client's records that have reached the server's end of
      the wire; a record is then read, or lost there (dropped, corrupted, or refused by the codec). */
  datatype Tunnel = Tunnel(
    c: Endpoint, s: Endpoint,
    upPos: nat, downPos: nat,
    upLossless: bool, downLossless: bool
  )

  datatype TunnelStep = AtClient(a: Step) | AtServer(a: Step) | LoseUp | LoseDown

  const START := Tunnel(Init(Client), Init(Server), 0, 0, true, true)

  /** A step of `e` against what its peer has put on the wire. */
  predicate WireAllows(a: Step, peer: Endpoint, pos: nat) {
    && (a.Reader? && a.r.Read? ==> pos < peer.sent <= |peer.enq| && a.r.f == peer.enq[pos])
    && (a.Kill? && a.s.Start? && a.s.k == KReader && a.s.cause == PeerClosed ==>
          pos == peer.sent && HasReturned(peer, KReader) && HasReturned(peer, KWriter))
  }

  function Advance(a: Step): nat {
    if a.Reader? && a.r.Read? then 1 else 0
  }

  predicate MayHappen(t: Tunnel, x: TunnelStep) {
    match x
    case AtClient(a) => Enabled(t.c, a) && WireAllows(a, t.s, t.downPos)
    case AtServer(a) => Enabled(t.s, a) && WireAllows(a, t.c, t.upPos)
    case LoseUp => t.upPos < t.c.sent
    case LoseDown => t.downPos < t.s.sent
  }

  function Next(t: Tunnel, x: TunnelStep): Tunnel
    requires MayHappen(t, x)
  {
    match x
    case AtClient(a) => t.(c := Do(t.c, a), downPos := t.downPos + Advance(a))
    case AtServer(a) => t.(s := Do(t.s, a), upPos := t.upPos + Advance(a))
    case LoseUp => t.(upPos := t.upPos + 1, upLossless := false)
    case LoseDown => t.(downPos := t.downPos + 1, downLossless := false)
  }

  /** The state after a finite run from the freshly authenticated connection, if the run can happen. */
  function Run(run: seq<TunnelStep>): Option<Tunnel> {
    if |run| == 0 then Some(START)
    else
      match Run(run[..|run| - 1])
      case None => None
      case Some(t) => if MayHappen(t, run[|run| - 1]) then Some(Next(t, run[|run| - 1])) else None
  }

  predicate Legal(run: seq<TunnelStep>) {
    Run(run).Some?
  }

  function After(run: seq<TunnelStep>): Tunnel
    requires Legal(run)
  {
    Run(run).value
  }

  // ── the invariant of the pair ──────────────────────────────────────────────

  predicate LocalInv(e: Endpoint) {
    Book(e) && StreamInv(e) && FanInv(e) && CloseInv(e)
  }

  /** What one end has read of what the other has sent. */
  ghost predicate WireInv(sender: Endpoint, reader: Endpoint, pos: nat, lossless: bool) {
    && pos <= sender.sent <= |sender.enq|
    && IsSubsequence(reader.seen, sender.enq[..pos])
    && (lossless ==> reader.seen == sender.enq[..pos])
  }

  /** Nothing was lost, nothing killed, and stream `i` neither stalled nor had its dial or a local write fail;
      whatever happened to other streams. */
  predicate CleanFor(t: Tunnel, i: Id) {
    Spared(t.c, i) && Spared(t.s, i) && t.upLossless && t.downLossless
  }

  /** Both ends alive. */
  predicate Alive(t: Tunnel) {
    t.c.death.killers == map[] && t.s.death.killers == map[]
  }

  predicate EndsOk(t: Tunnel) {
    t.c.role == Client && t.s.role == Server && LocalInv(t.c) && LocalInv(t.s)
  }

  ghost predicate WiresOk(t: Tunnel) {
    WireInv(t.c, t.s, t.upPos, t.upLossless) && WireInv(t.s, t.c, t.downPos, t.downLossless)
  }

  ghost predicate Inv(t: Tunnel) {
    && EndsOk(t) && WiresOk(t)
    && (forall i: Id {:trigger CleanFor(t, i)} :: CleanFor(t, i) ==> CleanInv(t.c, i) && CleanInv(t.s, i))
  }

  lemma RoleStays(e: Endpoint, a: Step)
    requires Enabled(e, a)
    ensures Do(e, a).role == e.role
  {
  }

  lemma LocalFan(e: Endpoint, a: Step)
    requires Book(e) && FanInv(e) && StepOk(e, a)
    ensures FanInv(Do(e, a))
  {
    FanStep(e, a);
  }

  lemma LocalClose(e: Endpoint, a: Step)
    requires Book(e) && CloseInv(e) && StepOk(e, a)
    ensures CloseInv(Do(e, a))
  {
    StepIsFresh(e, a);
    CloseStep(e, a);
  }

  lemma LocalParts(e: Endpoint)
    requires LocalInv(e)
    ensures Book(e) && StreamInv(e) && FanInv(e) && CloseInv(e)
  {
  }

  lemma LocalWhole(e: Endpoint)
    requires Book(e) && StreamInv(e) && FanInv(e) && CloseInv(e)
    ensures LocalInv(e)
  {
  }

  lemma LocalStep(e: Endpoint, a: Step)
    requires LocalInv(e) && StepOk(e, a)
    ensures LocalInv(Do(e, a))
  {
    LocalParts(e);
    BookStep(e, a);
    StreamStep(e, a);
    LocalFan(e, a);
    LocalClose(e, a);
    LocalWhole(Do(e, a));
  }

  /** Sending only adds frames behind the ones on the wire. */
  lemma SenderGrows(e: Endpoint, a: Step)
    requires Enabled(e, a) && Cursors(e)
    ensures var e' := Do(e, a); e.enq <= e'.enq && e.sent <= e'.sent && (!a.Reader? || !a.r.Read? ==> e'.seen == e.seen)
  {
    var f := EnqueuedByStep(e, a);
  }

  lemma WireSenderStep(e: Endpoint, a: Step, reader: Endpoint, pos: nat, lossless: bool)
    requires Enabled(e, a) && Cursors(e) && Cursors(Do(e, a)) && WireInv(e, reader, pos, lossless)
    ensures WireInv(Do(e, a), reader, pos, lossless)
  {
    SenderGrows(e, a);
    assert Do(e, a).enq[..pos] == e.enq[..pos];
  }

  lemma WireReaderStep(sender: Endpoint, e: Endpoint, a: Step, pos: nat, lossless: bool)
    requires Enabled(e, a) && Cursors(e) && WireAllows(a, sender, pos) && WireInv(sender, e, pos, lossless)
    ensures WireInv(sender, Do(e, a), pos + Advance(a), lossless)
  {
    SenderGrows(e, a);
    if a.Reader? && a.r.Read? {
      assert sender.enq[..pos + 1] == sender.enq[..pos] + [a.r.f];
      SubsequenceTake(e.seen, sender.enq[..pos], a.r.f);
    }
  }

  lemma WireLoss(sender: Endpoint, reader: Endpoint, pos: nat, lossless: bool)
    requires pos < sender.sent && WireInv(sender, reader, pos, lossless)
    ensures WireInv(sender, reader, pos + 1, false)
  {
    assert sender.enq[..pos + 1] == sender.enq[..pos] + [sender.enq[pos]];
    SubsequenceSkip(reader.seen, sender.enq[..pos], sender.enq[pos]);
  }

  lemma IdsOfPrefix(fs: seq<Frame>, n: nat)
    requires n <= |fs|
    ensures Ids(fs[..n]) <= Ids(fs)
  {
    SubsequenceOfSelf(fs[..n]);
    SubsequenceExtend(fs[..n], fs[..n], fs[n..]);
    assert fs == fs[..n] + fs[n..];
    IdsSubsequence(fs[..n], fs);
  }

  /** Every stream the server speaks of was opened by the client. */
  lemma ServerSpeaksOfOpened(t: Tunnel)
    requires Inv(t)
    ensures Ids(t.s.enq) <= Ids(t.s.seen) <= Ids(t.c.enq) <= t.c.streams.Keys
  {
    IdsSubsequence(t.s.seen, t.c.enq[..t.upPos]);
    IdsOfPrefix(t.c.enq, t.upPos);
  }

  lemma ReadsAreOk(t: Tunnel, x: TunnelStep)
    requires Inv(t) && MayHappen(t, x)
    ensures x.AtClient? ==> StepOk(t.c, x.a)
    ensures x.AtServer? ==> StepOk(t.s, x.a)
  {
    if x.AtClient? && x.a.Reader? && x.a.r.Read? {
      ServerSpeaksOfOpened(t);
      IdsContain(t.s.enq, t.downPos);
    }
    if x.AtServer? && x.a.Reader? && x.a.r.Read? {
      IdsSubsequence(t.s.seen, t.c.enq[..t.upPos]);
      assert OpensFirst(t.c.enq);
    }
  }

  /** A frame of `i` that arrives after its OPEN was read, and before its CLOSE. */
  lemma ReadAtServer(t: Tunnel, i: Id)
    requires EndsOk(t) && WiresOk(t) && t.upLossless && t.upPos < t.c.sent && t.s.hand == Idle
    requires SilentAfterClose(t.c.enq, i)
    ensures CleanIn(t.s, t.c.enq[t.upPos], i)
  {
    LocalParts(t.c);
    LocalParts(t.s);
    assert OpensFirst(t.c.enq);
  }

  lemma ReadAtClient(t: Tunnel, i: Id)
    requires EndsOk(t) && WiresOk(t) && t.downLossless && t.downPos < t.s.sent
    requires SilentAfterClose(t.s.enq, i) && Ids(t.s.enq) <= t.c.streams.Keys
    ensures CleanIn(t.c, t.s.enq[t.downPos], i)
  {
    IdsContain(t.s.enq, t.downPos);
  }

  lemma CleanReads(t: Tunnel, x: TunnelStep, i: Id)
    requires Inv(t) && MayHappen(t, x) && CleanFor(t, i)
    ensures x.AtClient? && x.a.Reader? && x.a.r.Read? ==> CleanIn(t.c, x.a.r.f, i)
    ensures x.AtServer? && x.a.Reader? && x.a.r.Read? ==> CleanIn(t.s, x.a.r.f, i)
  {
    if x.AtServer? && x.a.Reader? && x.a.r.Read? {
      ReadAtServer(t, i);
    }
    if x.AtClient? && x.a.Reader? && x.a.r.Read? {
      ServerSpeaksOfOpened(t);
      ReadAtClient(t, i);
    }
  }

  lemma CleanEndStep(e: Endpoint, a: Step, i: Id)
    requires LocalInv(e) && CleanInv(e, i) && StepOk(e, a) && Spared(Do(e, a), i)
    requires a.Reader? && a.r.Read? ==> CleanIn(e, a.r.f, i)
    ensures CleanInv(Do(e, a), i)
  {
    StepIsFresh(e, a);
    CleanStep(e, a, i);
  }

  lemma CleanBefore(t: Tunnel, x: TunnelStep, i: Id)
    requires Inv(t) && MayHappen(t, x) && CleanFor(Next(t, x), i)
    ensures CleanFor(t, i) && CleanInv(t.c, i) && CleanInv(t.s, i) && (x.AtClient? || x.AtServer?)
  {
    if x.AtClient? { SparedBefore(t.c, x.a, i); }
    if x.AtServer? { SparedBefore(t.s, x.a, i); }
    assert CleanFor(t, i);
  }

  lemma CleanNext(t: Tunnel, x: TunnelStep, i: Id)
    requires Inv(t) && MayHappen(t, x) && CleanFor(Next(t, x), i)
    ensures CleanInv(Next(t, x).c, i) && CleanInv(Next(t, x).s, i)
  {
    CleanBefore(t, x, i);
    CleanReads(t, x, i);
    ReadsAreOk(t, x);
    if x.AtClient? {
      CleanEndStep(t.c, x.a, i);
    } else {
      CleanEndStep(t.s, x.a, i);
    }
  }

  lemma SparedBefore(e: Endpoint, a: Step, i: Id)
    requires Enabled(e, a) && Spared(Do(e, a), i)
    ensures Spared(e, i)
  {
  }

  /** A step of `e` against both wires. */
  lemma WiresStep(e: Endpoint, a: Step, peer: Endpoint, outPos: nat, outOk: bool, inPos: nat, inOk: bool)
    requires Enabled(e, a) && Cursors(e) && Cursors(Do(e, a)) && WireAllows(a, peer, inPos)
    requires WireInv(e, peer, outPos, outOk) && WireInv(peer, e, inPos, inOk)
    ensures WireInv(Do(e, a), peer, outPos, outOk) && WireInv(peer, Do(e, a), inPos + Advance(a), inOk)
  {
    WireSenderStep(e, a, peer, outPos, outOk);
    WireReaderStep(peer, e, a, inPos, inOk);
  }

  lemma EndsStep(t: Tunnel, x: TunnelStep)
    requires EndsOk(t) && MayHappen(t, x)
    requires (x.AtClient? ==> StepOk(t.c, x.a)) && (x.AtServer? ==> StepOk(t.s, x.a))
    ensures EndsOk(Next(t, x))
  {
    match x
    case AtClient(a) =>
      LocalStep(t.c, a);
      RoleStays(t.c, a);
    case AtServer(a) =>
      LocalStep(t.s, a);
      RoleStays(t.s, a);
    case _ =>
  }

  lemma WiresAtClient(t: Tunnel, a: Step)
    requires WiresOk(t) && MayHappen(t, AtClient(a)) && Cursors(t.c) && Cursors(Do(t.c, a))
    ensures WiresOk(Next(t, AtClient(a)))
  {
    WiresStep(t.c, a, t.s, t.upPos, t.upLossless, t.downPos, t.downLossless);
  }

  lemma WiresAtServer(t: Tunnel, a: Step)
    requires WiresOk(t) && MayHappen(t, AtServer(a)) && Cursors(t.s) && Cursors(Do(t.s, a))
    ensures WiresOk(Next(t, AtServer(a)))
  {
    WiresStep(t.s, a, t.c, t.downPos, t.downLossless, t.upPos, t.upLossless);
  }

  lemma WiresLose(t: Tunnel, x: TunnelStep)
    requires WiresOk(t) && MayHappen(t, x) && (x.LoseUp? || x.LoseDown?)
    ensures WiresOk(Next(t, x))
  {
    if x.LoseUp? {
      WireLoss(t.c, t.s, t.upPos, t.upLossless);
    } else {
      WireLoss(t.s, t.c, t.downPos, t.downLossless);
    }
  }

  lemma WiresKept(t: Tunnel, x: TunnelStep)
    requires WiresOk(t) && MayHappen(t, x)
    requires x.AtClient? ==> Cursors(t.c) && Cursors(Do(t.c, x.a))
    requires x.AtServer? ==> Cursors(t.s) && Cursors(Do(t.s, x.a))
    ensures WiresOk(Next(t, x))
  {
    match x
    case AtClient(a) => WiresAtClient(t, a);
    case AtServer(a) => WiresAtServer(t, a);
    case _ => WiresLose(t, x);
  }

  lemma CursorsStay(e: Endpoint, a: Step)
    requires Book(e) && StepOk(e, a)
    ensures Cursors(e) && Cursors(Do(e, a))
  {
    BookStep(e, a);
  }

  lemma CursorsInPair(t: Tunnel, x: TunnelStep)
    requires EndsOk(t) && MayHappen(t, x)
    requires (x.AtClient? ==> StepOk(t.c, x.a)) && (x.AtServer? ==> StepOk(t.s, x.a))
    ensures x.AtClient? ==> Cursors(t.c) && Cursors(Do(t.c, x.a))
    ensures x.AtServer? ==> Cursors(t.s) && Cursors(Do(t.s, x.a))
  {
    match x
    case AtClient(a) => LocalParts(t.c); CursorsStay(t.c, a);
    case AtServer(a) => LocalParts(t.s); CursorsStay(t.s, a);
    case _ =>
  }

  lemma PairStep(t: Tunnel, x: TunnelStep)
    requires EndsOk(t) && WiresOk(t) && MayHappen(t, x)
    requires (x.AtClient? ==> StepOk(t.c, x.a)) && (x.AtServer? ==> StepOk(t.s, x.a))
    ensures EndsOk(Next(t, x)) && WiresOk(Next(t, x))
  {
    EndsStep(t, x);
    CursorsInPair(t, x);
    WiresKept(t, x);
  }

  lemma InvNext(t: Tunnel, x: TunnelStep)
    requires Inv(t) && MayHappen(t, x)
    ensures Inv(Next(t, x))
  {
    ReadsAreOk(t, x);
    PairStep(t, x);
    forall i: Id | CleanFor(Next(t, x), i)
      ensures CleanInv(Next(t, x).c, i) && CleanInv(Next(t, x).s, i)
    {
      CleanNext(t, x, i);
    }
  }

  lemma {:induction false} Always(run: seq<TunnelStep>)
    requires Legal(run)
    ensures Inv(After(run))
  {
    if |run| == 0 {
      StartInv();
    } else {
      Always(run[..|run| - 1]);
      InvNext(After(run[..|run| - 1]), run[|run| - 1]);
    }
  }

  lemma StartInv()
    ensures Inv(START)
  {
    assert START.c.enq[..0] == [] && START.s.enq[..0] == [];
  }
}
